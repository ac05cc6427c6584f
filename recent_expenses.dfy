/**
 * The logic of the dashboard's recent-expenses list: the search box filter
 * and the icon and colour shown for a category name.
 */
module RecentExpenses {
  import opened Seqs
  import opened Tables
  import opened Schema
  import opened Storage

  // ---------------------------------------------------------------------------
  // Search

  /** `toLowerCase` on the ASCII letters; other characters are left as they are. */
  function LowerChar(c: char): char {
    if 'A' <= c <= 'Z' then (c as int + 32) as char else c
  }

  function Lower(s: string): (r: string)
    ensures |r| == |s| && forall i :: 0 <= i < |s| ==> r[i] == LowerChar(s[i])
  {
    seq(|s|, i requires 0 <= i < |s| => LowerChar(s[i]))
  }

  /**
   * The search predicate for one expense: its description, or else its
   * category's name, contains the query, ignoring case. The `||` reads the
   * category only when the description does not match; `None` is the
   * TypeError thrown for an expense whose category is missing.
   */
  function Matches(e: ExpenseWithCategory, query: string): (m: Option<bool>)
    ensures m.None? <==> !Includes(Lower(e.expense.data.description), Lower(query)) && e.category.None?
    ensures m.Some? ==> (m.value <==> Includes(Lower(e.expense.data.description), Lower(query))
                                      || Includes(Lower(e.category.value.data.name), Lower(query)))
  {
    var q := Lower(query);
    if Includes(Lower(e.expense.data.description), q) then Some(true)
    else if e.category.None? then None
    else Some(Includes(Lower(e.category.value.data.name), q))
  }

  predicate Kept(e: ExpenseWithCategory, query: string) {
    Matches(e, query) == Some(true)
  }

  /**
   * `expenses.filter(...)` with the search query: an order-preserving sub-list
   * of exactly the matching expenses, or `None` when the predicate throws on
   * some expense.
   */
  function FilterExpenses(es: seq<ExpenseWithCategory>, query: string): (r: Option<seq<ExpenseWithCategory>>)
    ensures r.None? <==> exists i :: 0 <= i < |es| && Matches(es[i], query).None?
    ensures r.Some? ==> IsSublist(r.value, es)
    ensures r.Some? ==> forall e :: e in r.value <==> e in es && Kept(e, query)
  {
    if exists i :: 0 <= i < |es| && Matches(es[i], query).None? then None
    else Some(Filter(es, (e: ExpenseWithCategory) => Kept(e, query)))
  }

  /** Every text contains the empty text. */
  lemma IncludesEmpty(t: string)
    ensures Includes(t, [])
  {
    assert t[..0] == [];
  }

  /** An empty search box keeps every expense, even one whose category is missing. */
  lemma EmptyQueryKeepsAll(es: seq<ExpenseWithCategory>)
    ensures FilterExpenses(es, "") == Some(es)
  {
    assert Lower("") == [];
    forall e | e in es ensures Kept(e, "") {
      IncludesEmpty(Lower(e.expense.data.description));
    }
    FilterAll(es, (e: ExpenseWithCategory) => Kept(e, ""));
  }

  // ---------------------------------------------------------------------------
  // Icons and colours

  /** The eight icons, which are also the icons the server seeds its default categories with. */
  const IconMap: map<string, string> := map[
    "Food & Drinks" := "\U{1F355}",
    "Transportation" := "\U{1F697}",
    "Shopping" := "\U{1F6CD}\U{FE0F}",
    "Entertainment" := "\U{1F3AC}",
    "Health & Medical" := "\U{1F3E5}",
    "Utilities" := "\U{1F4A1}",
    "Travel" := "\U{2708}\U{FE0F}",
    "Education" := "\U{1F4DA}"
  ]

  const FallbackIcon: string := "\U{1F4DD}"

  const ColorMap: map<string, string> := map[
    "Food & Drinks" := "text-red-500 bg-red-100 dark:bg-red-500/20",
    "Transportation" := "text-blue-500 bg-blue-100 dark:bg-blue-500/20",
    "Shopping" := "text-green-500 bg-green-100 dark:bg-green-500/20",
    "Entertainment" := "text-purple-500 bg-purple-100 dark:bg-purple-500/20",
    "Health & Medical" := "text-orange-500 bg-orange-100 dark:bg-orange-500/20",
    "Utilities" := "text-gray-500 bg-gray-100 dark:bg-gray-500/20",
    "Travel" := "text-red-600 bg-red-100 dark:bg-red-600/20",
    "Education" := "text-indigo-500 bg-indigo-100 dark:bg-indigo-500/20"
  ]

  const FallbackColor: string := "text-gray-500 bg-gray-100 dark:bg-gray-500/20"

  /** The names every plain JavaScript object inherits from `Object.prototype`. */
  const ObjectPrototypeMembers: set<string> := {
    "constructor", "toString", "toLocaleString", "valueOf", "hasOwnProperty", "isPrototypeOf",
    "propertyIsEnumerable", "__proto__", "__defineGetter__", "__defineSetter__",
    "__lookupGetter__", "__lookupSetter__"
  }

  /** What `map[name] || fallback` yields: a string, or an inherited member (a function or the prototype object). */
  datatype Lookup = Text(s: string) | ProtoMember(name: string)

  /** `iconMap[category] || fallback` on an object literal: inherited names find the inherited member, which is truthy. */
  function CategoryIconAsWritten(name: string): (r: Lookup)
    ensures name in IconMap ==> r == Text(IconMap[name])
    ensures name !in IconMap && name in ObjectPrototypeMembers ==> r == ProtoMember(name)
    ensures name !in IconMap && name !in ObjectPrototypeMembers ==> r == Text(FallbackIcon)
  {
    if name in IconMap then Text(IconMap[name])
    else if name in ObjectPrototypeMembers then ProtoMember(name)
    else Text(FallbackIcon)
  }

  function CategoryColorAsWritten(name: string): (r: Lookup)
    ensures name in ColorMap ==> r == Text(ColorMap[name])
    ensures name !in ColorMap && name in ObjectPrototypeMembers ==> r == ProtoMember(name)
    ensures name !in ColorMap && name !in ObjectPrototypeMembers ==> r == Text(FallbackColor)
  {
    if name in ColorMap then Text(ColorMap[name])
    else if name in ObjectPrototypeMembers then ProtoMember(name)
    else Text(FallbackColor)
  }

  /** A custom category called "constructor" gets the `Object` function instead of the fallback icon and colour. */
  lemma InheritedNameSkipsFallback()
    ensures CategoryIconAsWritten("constructor") == ProtoMember("constructor")
    ensures CategoryColorAsWritten("constructor") == ProtoMember("constructor")
    ensures CategoryIcon("constructor") == FallbackIcon && CategoryColor("constructor") == FallbackColor
  {
    assert "constructor" !in IconMap;
    assert "constructor" !in ColorMap;
  }

  /** The icon for a category name: its own entry for the eight default names, the fallback for every other name. */
  function CategoryIcon(name: string): (icon: string)
    ensures name in IconMap ==> icon == IconMap[name]
    ensures name !in IconMap ==> icon == FallbackIcon
  {
    if name in IconMap then IconMap[name] else FallbackIcon
  }

  function CategoryColor(name: string): (color: string)
    ensures name in ColorMap ==> color == ColorMap[name]
    ensures name !in ColorMap ==> color == FallbackColor
  {
    if name in ColorMap then ColorMap[name] else FallbackColor
  }

  /** The lookups as written agree with the corrected ones on every name that is not an inherited member. */
  lemma LookupsAgreeOffPrototype(name: string)
    requires name !in ObjectPrototypeMembers
    ensures CategoryIconAsWritten(name) == Text(CategoryIcon(name))
    ensures CategoryColorAsWritten(name) == Text(CategoryColor(name))
  {
  }

  /** The client's icon for each seeded default category is the icon the server seeds it with. */
  lemma IconsMatchSeededCategories()
    ensures forall i :: 0 <= i < |DefaultCategories| ==>
      CategoryIcon(DefaultCategories[i].name) == DefaultCategories[i].icon
  {
  }

  /** Grey is the fallback, and among the default names only "Utilities" is shown grey as well. */
  lemma GrayColorNames(name: string)
    ensures CategoryColor(name) == FallbackColor <==> name !in ColorMap || name == "Utilities"
  {
  }
}
