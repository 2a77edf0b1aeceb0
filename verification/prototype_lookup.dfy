/*
 * The counter table of the store is a plain object literal, so an index
 * such as `freq["constructor"]` also finds the members every object inherits
 * from `Object.prototype`. This module models that lookup as written and
 * shows where it parts from the own-key lookup that the rest of the model
 * uses for `getCount`.
 */
module PrototypeLookup {
  import opened CompletionFrequency

  /** Member names a plain object inherits from `Object.prototype`. */
  const InheritedNames: set<string> := {
    "constructor", "hasOwnProperty", "isPrototypeOf", "propertyIsEnumerable",
    "toLocaleString", "toString", "valueOf", "__proto__",
    "__defineGetter__", "__defineSetter__", "__lookupGetter__", "__lookupSetter__"
  }

  /** What `freq[name]` evaluates to on the table object. */
  datatype Property = Own(count: nat) | Inherited(member: string) | Missing

  function Lookup(t: Table, name: string): Property
  {
    if name in t then Own(t[name])
    else if name in InheritedNames then Inherited(name)
    else Missing
  }

  /** `getCount` as written: `freq[name] ?? 0`, which keeps every value that is not undefined. */
  function GetCountAsWritten(t: Table, name: string): (r: Property)
    ensures !r.Missing?
    ensures r.Inherited? <==> name !in t && name in InheritedNames
  {
    match Lookup(t, name)
    case Missing => Own(0)
    case p => p
  }

  /** On a fresh table, asking for "constructor" yields a function, not the count 0. */
  lemma InheritedNameIsNotACount()
    ensures GetCountAsWritten(map[], "constructor") == Inherited("constructor")
    ensures GetCountAsWritten(map[], "constructor") != Own(CountOf(map[], "constructor"))
  {
  }

  /**
   * The own-key lookup agrees with the code as written on every name the
   * table holds and on every name `Object.prototype` lacks, and only there.
   */
  lemma OwnKeyLookupAgreement(t: Table, name: string)
    ensures GetCountAsWritten(t, name) == Own(CountOf(t, name)) <==> name in t || name !in InheritedNames
  {
  }

  /**
   * With the own-key lookup, a name never stored and never counted reads 0
   * whatever it is called, on a fresh store as on a loaded one.
   */
  lemma CorrectedCountOfUnseenIsZero(s: StoreState, names: seq<string>, name: string)
    requires name !in s.freq && name !in names
    ensures CountOf(AcceptAll(s, names).freq, name) == 0
  {
    AcceptAllFreq(s, names);
    BumpAllCounts(s.freq, names, name);
    assert name != "" ==> multiset(names)[name] == 0;
  }

  // ---------------------------------------------------------------------------
  // `increment` as written

  /** A property value of the table object: a number, or a string left by `+` on a non-number. */
  datatype Slot = Num(n: nat) | Str(s: string)

  type ObjectTable = map<string, Slot>

  /** The table object holding the counts of `t` as numbers. */
  function Lift(t: Table): (o: ObjectTable)
    ensures o.Keys == t.Keys
    ensures forall k :: k in t ==> o[k] == Num(t[k])
  {
    map k | k in t :: Num(t[k])
  }

  /** The text `String(f)` gives for the inherited function `f` (in the V8 engine's format). */
  function NativeText(member: string): string
  {
    "function " + (if member == "constructor" then "Object" else member) + "() { [native code] }"
  }

  /**
   * `increment` as written: `freq[name] = (freq[name] ?? 0) + 1`. An own
   * number is raised, an own string gets "1" appended, an inherited function
   * is turned into its text followed by "1", and the `__proto__` setter
   * ignores the resulting string, so that name stores nothing.
   */
  function IncrementAsWritten(o: ObjectTable, name: string): ObjectTable
  {
    if name == "" then o
    else if name in o then
      match o[name]
      case Num(n) => o[name := Num(n + 1)]
      case Str(text) => o[name := Str(text + "1")]
    else if name == "__proto__" then o
    else if name in InheritedNames then o[name := Str(NativeText(name) + "1")]
    else o[name := Num(1)]
  }

  /** On a fresh table, counting an inherited name stores text, and counting it again appends to it. */
  lemma InheritedIncrementIsNotACount()
    ensures IncrementAsWritten(map[], "constructor") == map["constructor" := Str(NativeText("constructor") + "1")]
    ensures IncrementAsWritten(IncrementAsWritten(map[], "toString"), "toString")
      == map["toString" := Str(NativeText("toString") + "11")]
    ensures IncrementAsWritten(map[], "__proto__") == map[]
  {
    assert NativeText("toString") + "1" + "1" == NativeText("toString") + "11";
  }

  /**
   * On every name the table holds as a number and every name `Object.prototype`
   * lacks, `increment` as written does what `Bump` does.
   */
  lemma IncrementAgreesWithBump(t: Table, name: string)
    requires name != "" && (name in t || name !in InheritedNames)
    ensures IncrementAsWritten(Lift(t), name) == Lift(Bump(t, name))
  {
    var lhs := IncrementAsWritten(Lift(t), name);
    var rhs := Lift(Bump(t, name));
    assert lhs.Keys == rhs.Keys;
    forall k | k in lhs.Keys ensures lhs[k] == rhs[k] {
    }
  }
}
