/**
 * US state lookup used by the event search (`backend/utils/stateUtils.js`).
 *
 * The source keeps one object, `STATE_MAPPING`, whose keys are the fifty lower-case state
 * names mapped to their two-letter codes; a `forEach` then adds every code in lower case
 * as a key mapped to itself. `isStateCode` cleans its input (trim, lower-case, drop every
 * character that is not a letter `a`-`z` or white space) and looks the result up.
 */
module StateUtils {
  import opened Wrappers
  import opened Seqs
  import opened Text

  /** A character of a state name key: a lower-case letter or a space. */
  predicate NameChar(c: char) {
    IsLower(c) || c == ' '
  }

  /**
   * A key of the name part of the table: longer than a code, made of lower-case letters and
   * spaces, and starting and ending with a letter.
   */
  predicate IsStateName(s: string) {
    |s| > 2 && IsLower(s[0]) && IsLower(s[|s| - 1]) && forall i | 0 <= i < |s| :: NameChar(s[i])
  }

  /** A two-letter upper-case postal code. */
  predicate IsStateAbbr(s: string) {
    |s| == 2 && IsUpper(s[0]) && IsUpper(s[1])
  }

  /** One `name: 'CODE'` property of the object literal. */
  datatype StateEntry = StateEntry(name: string, abbr: string)

  const StateCount: nat := 50

  function Block0(k: nat): StateEntry
    requires k < 10
  {
    match k
    case 0 => StateEntry("alabama", "AL")
    case 1 => StateEntry("alaska", "AK")
    case 2 => StateEntry("arizona", "AZ")
    case 3 => StateEntry("arkansas", "AR")
    case 4 => StateEntry("california", "CA")
    case 5 => StateEntry("colorado", "CO")
    case 6 => StateEntry("connecticut", "CT")
    case 7 => StateEntry("delaware", "DE")
    case 8 => StateEntry("florida", "FL")
    case _ => StateEntry("georgia", "GA")
  }

  function Block1(k: nat): StateEntry
    requires k < 10
  {
    match k
    case 0 => StateEntry("hawaii", "HI")
    case 1 => StateEntry("idaho", "ID")
    case 2 => StateEntry("illinois", "IL")
    case 3 => StateEntry("indiana", "IN")
    case 4 => StateEntry("iowa", "IA")
    case 5 => StateEntry("kansas", "KS")
    case 6 => StateEntry("kentucky", "KY")
    case 7 => StateEntry("louisiana", "LA")
    case 8 => StateEntry("maine", "ME")
    case _ => StateEntry("maryland", "MD")
  }

  function Block2(k: nat): StateEntry
    requires k < 10
  {
    match k
    case 0 => StateEntry("massachusetts", "MA")
    case 1 => StateEntry("michigan", "MI")
    case 2 => StateEntry("minnesota", "MN")
    case 3 => StateEntry("mississippi", "MS")
    case 4 => StateEntry("missouri", "MO")
    case 5 => StateEntry("montana", "MT")
    case 6 => StateEntry("nebraska", "NE")
    case 7 => StateEntry("nevada", "NV")
    case 8 => StateEntry("new hampshire", "NH")
    case _ => StateEntry("new jersey", "NJ")
  }

  function Block3(k: nat): StateEntry
    requires k < 10
  {
    match k
    case 0 => StateEntry("new mexico", "NM")
    case 1 => StateEntry("new york", "NY")
    case 2 => StateEntry("north carolina", "NC")
    case 3 => StateEntry("north dakota", "ND")
    case 4 => StateEntry("ohio", "OH")
    case 5 => StateEntry("oklahoma", "OK")
    case 6 => StateEntry("oregon", "OR")
    case 7 => StateEntry("pennsylvania", "PA")
    case 8 => StateEntry("rhode island", "RI")
    case _ => StateEntry("south carolina", "SC")
  }

  function Block4(k: nat): StateEntry
    requires k < 10
  {
    match k
    case 0 => StateEntry("south dakota", "SD")
    case 1 => StateEntry("tennessee", "TN")
    case 2 => StateEntry("texas", "TX")
    case 3 => StateEntry("utah", "UT")
    case 4 => StateEntry("vermont", "VT")
    case 5 => StateEntry("virginia", "VA")
    case 6 => StateEntry("washington", "WA")
    case 7 => StateEntry("west virginia", "WV")
    case 8 => StateEntry("wisconsin", "WI")
    case _ => StateEntry("wyoming", "WY")
  }

  /** Property `i` of `STATE_MAPPING`, in the order the object literal lists the states. */
  function StateAt(i: nat): StateEntry
    requires i < StateCount
  {
    if i < 10 then Block0(i)
    else if i < 20 then Block1(i - 10)
    else if i < 30 then Block2(i - 20)
    else if i < 40 then Block3(i - 30)
    else Block4(i - 40)
  }

  lemma Block0Valid(k: nat)
    requires k < 10
    ensures IsStateName(Block0(k).name) && IsStateAbbr(Block0(k).abbr)
  {
    if k < 5 {
      Block0NameLow(k);
    } else {
      Block0NameHigh(k);
    }
  }

  lemma Block0NameLow(k: nat)
    requires k < 5
    ensures IsStateName(Block0(k).name)
  {
  }

  lemma Block0NameHigh(k: nat)
    requires 5 <= k < 10
    ensures IsStateName(Block0(k).name)
  {
  }

  lemma Block1Valid(k: nat)
    requires k < 10
    ensures IsStateName(Block1(k).name) && IsStateAbbr(Block1(k).abbr)
  {
    if k < 5 {
      Block1NameLow(k);
    } else {
      Block1NameHigh(k);
    }
  }

  lemma Block1NameLow(k: nat)
    requires k < 5
    ensures IsStateName(Block1(k).name)
  {
  }

  lemma Block1NameHigh(k: nat)
    requires 5 <= k < 10
    ensures IsStateName(Block1(k).name)
  {
  }

  lemma Block2Valid(k: nat)
    requires k < 10
    ensures IsStateName(Block2(k).name) && IsStateAbbr(Block2(k).abbr)
  {
    if k < 5 {
      Block2NameLow(k);
    } else {
      Block2NameHigh(k);
    }
  }

  lemma Block2NameLow(k: nat)
    requires k < 5
    ensures IsStateName(Block2(k).name)
  {
  }

  lemma Block2NameHigh(k: nat)
    requires 5 <= k < 10
    ensures IsStateName(Block2(k).name)
  {
  }

  lemma Block3Valid(k: nat)
    requires k < 10
    ensures IsStateName(Block3(k).name) && IsStateAbbr(Block3(k).abbr)
  {
    if k < 5 {
      Block3NameLow(k);
    } else {
      Block3NameHigh(k);
    }
  }

  lemma Block3NameLow(k: nat)
    requires k < 5
    ensures IsStateName(Block3(k).name)
  {
  }

  lemma Block3NameHigh(k: nat)
    requires 5 <= k < 10
    ensures IsStateName(Block3(k).name)
  {
  }

  lemma Block4Valid(k: nat)
    requires k < 10
    ensures IsStateName(Block4(k).name) && IsStateAbbr(Block4(k).abbr)
  {
    if k < 5 {
      Block4NameLow(k);
    } else {
      Block4NameHigh(k);
    }
  }

  lemma Block4NameLow(k: nat)
    requires k < 5
    ensures IsStateName(Block4(k).name)
  {
  }

  lemma Block4NameHigh(k: nat)
    requires 5 <= k < 10
    ensures IsStateName(Block4(k).name)
  {
  }

  /** Every row has a name key and a well-formed code. */
  lemma EntryValid(i: nat)
    requires i < StateCount
    ensures IsStateName(StateAt(i).name) && IsStateAbbr(StateAt(i).abbr)
  {
    if i < 10 {
      Block0Valid(i);
    } else if i < 20 {
      Block1Valid(i - 10);
    } else if i < 30 {
      Block2Valid(i - 20);
    } else if i < 40 {
      Block3Valid(i - 30);
    } else {
      Block4Valid(i - 40);
    }
  }

  /** `a` and `b` agree before index `k`, and from `k` on `a` sorts strictly before `b`. */
  predicate BelowFrom(a: string, b: string, k: nat)
    decreases |a| - k
  {
    k < |b| && (k >= |a| || a[k] < b[k] || (a[k] == b[k] && BelowFrom(a, b, k + 1)))
  }

  /** Strict lexicographic order on strings (code-unit order, a proper prefix first). */
  predicate Below(a: string, b: string) {
    BelowFrom(a, b, 0)
  }

  lemma {:induction false} BelowFromTrans(a: string, b: string, c: string, k: nat)
    requires BelowFrom(a, b, k) && BelowFrom(b, c, k)
    ensures BelowFrom(a, c, k)
    decreases |a| - k
  {
    if k < |a| && a[k] == b[k] && b[k] == c[k] {
      BelowFromTrans(a, b, c, k + 1);
    }
  }

  lemma BelowTrans(a: string, b: string, c: string)
    requires Below(a, b) && Below(b, c)
    ensures Below(a, c)
  {
    BelowFromTrans(a, b, c, 0);
  }

  lemma {:induction false} BelowFromIrreflexive(a: string, k: nat)
    ensures !BelowFrom(a, a, k)
    decreases |a| - k
  {
    if k < |a| {
      BelowFromIrreflexive(a, k + 1);
    }
  }

  lemma Block0InOrder(k: nat)
    requires k < 9
    ensures Below(Block0(k).name, Block0(k + 1).name)
  {
  }

  lemma Block1InOrder(k: nat)
    requires k < 9
    ensures Below(Block1(k).name, Block1(k + 1).name)
  {
  }

  lemma Block2InOrder(k: nat)
    requires k < 9
    ensures Below(Block2(k).name, Block2(k + 1).name)
  {
  }

  lemma Block3InOrder(k: nat)
    requires k < 9
    ensures Below(Block3(k).name, Block3(k + 1).name)
  {
  }

  lemma Block4InOrder(k: nat)
    requires k < 9
    ensures Below(Block4(k).name, Block4(k + 1).name)
  {
  }

  /** The object literal lists the states in alphabetical order of their names. */
  lemma AdjacentInOrder(i: nat)
    requires i + 1 < StateCount
    ensures Below(StateAt(i).name, StateAt(i + 1).name)
  {
    if i < 9 {
      Block0InOrder(i);
    } else if i == 9 {
      assert Below("georgia", "hawaii");
    } else if i < 19 {
      Block1InOrder(i - 10);
    } else if i == 19 {
      assert Below("maryland", "massachusetts");
    } else if i < 29 {
      Block2InOrder(i - 20);
    } else if i == 29 {
      assert Below("new jersey", "new mexico");
    } else if i < 39 {
      Block3InOrder(i - 30);
    } else if i == 39 {
      assert Below("south carolina", "south dakota");
    } else {
      Block4InOrder(i - 40);
    }
  }

  lemma {:induction false} InOrder(i: nat, j: nat)
    requires i < j < StateCount
    ensures Below(StateAt(i).name, StateAt(j).name)
    decreases j - i
  {
    AdjacentInOrder(i);
    if i + 1 < j {
      InOrder(i + 1, j);
      BelowTrans(StateAt(i).name, StateAt(i + 1).name, StateAt(j).name);
    }
  }

  /** No state name is listed twice. */
  lemma NamesDistinct(i: nat, j: nat)
    requires i < StateCount && j < StateCount && i != j
    ensures StateAt(i).name != StateAt(j).name
  {
    if i < j {
      InOrder(i, j);
    } else {
      InOrder(j, i);
    }
    BelowFromIrreflexive(StateAt(i).name, 0);
  }

  /** An object built by assigning `key: value` pairs in order: a later assignment wins. */
  function ToMap(pairs: seq<(string, string)>): map<string, string> {
    if |pairs| == 0 then map[]
    else ToMap(pairs[..|pairs| - 1])[pairs[|pairs| - 1].0 := pairs[|pairs| - 1].1]
  }

  lemma {:induction false} ToMapKeys(pairs: seq<(string, string)>, k: string)
    ensures k in ToMap(pairs) <==> exists i | 0 <= i < |pairs| :: pairs[i].0 == k
  {
    if |pairs| > 0 {
      var init := pairs[..|pairs| - 1];
      ToMapKeys(init, k);
      if exists i | 0 <= i < |init| :: init[i].0 == k {
        var i :| 0 <= i < |init| && init[i].0 == k;
        assert pairs[i].0 == k;
      }
      if exists i | 0 <= i < |pairs| :: pairs[i].0 == k {
        var i :| 0 <= i < |pairs| && pairs[i].0 == k;
        if i < |init| {
          assert init[i].0 == k;
        }
      }
    }
  }

  /** Every value in the object is the value of a pair with that key. */
  lemma {:induction false} ToMapValue(pairs: seq<(string, string)>, k: string)
    requires k in ToMap(pairs)
    ensures exists i | 0 <= i < |pairs| :: pairs[i] == (k, ToMap(pairs)[k])
  {
    var init := pairs[..|pairs| - 1];
    if pairs[|pairs| - 1].0 != k {
      ToMapValue(init, k);
      var i :| 0 <= i < |init| && init[i] == (k, ToMap(init)[k]);
      assert pairs[i] == init[i];
    }
  }

  /** The object literal: `name: 'CODE'` for each state. */
  function NamePairs(): seq<(string, string)> {
    seq(StateCount, i requires 0 <= i < StateCount => (StateAt(i).name, StateAt(i).abbr))
  }

  /** The keys the `forEach` adds: each code in lower case, mapped to itself. */
  function CodePairs(): seq<(string, string)> {
    seq(StateCount, i requires 0 <= i < StateCount => (ToLower(StateAt(i).abbr), StateAt(i).abbr))
  }

  /** `STATE_MAPPING` once the module has been loaded. */
  function StateMapping(): map<string, string> {
    ToMap(NamePairs() + CodePairs())
  }

  /**
   * The module's initialisation: the object literal, then the `forEach` over
   * `Object.values(STATE_MAPPING)` that adds each lower-cased code.
   */
  method BuildStateMapping() returns (mapping: map<string, string>)
    ensures mapping == StateMapping()
  {
    var names := NamePairs();
    mapping := ToMap(names);
    var values: seq<string> := seq(StateCount, i requires 0 <= i < StateCount => StateAt(i).abbr);
    var i := 0;
    assert names + CodePairs()[..0] == names;
    while i < |values|
      invariant 0 <= i <= |values|
      invariant mapping == ToMap(names + CodePairs()[..i])
    {
      var abbr := values[i];
      assert (names + CodePairs()[..i + 1])[..|names| + i] == names + CodePairs()[..i];
      mapping := mapping[ToLower(abbr) := abbr];
      i := i + 1;
    }
    assert CodePairs()[..i] == CodePairs();
  }

  /** A character `/[^a-z\s]/g` does not remove. */
  predicate KeyChar(c: char) {
    IsLower(c) || IsSpace(c)
  }

  /** `input.trim().toLowerCase().replace(/[^a-z\s]/g, '')`. */
  function Canonical(input: string): (key: string)
    ensures forall i | 0 <= i < |key| :: KeyChar(key[i])
  {
    var key := Filter(ToLower(Trim(input)), KeyChar);
    assert forall i | 0 <= i < |key| :: key[i] in key;
    key
  }

  /** The cleaning ignores letter case: inputs equal up to case give the same key. */
  lemma CanonicalIgnoresCase(a: string, b: string)
    requires ToLower(a) == ToLower(b)
    ensures Canonical(a) == Canonical(b)
  {
    TrimToLowerCommute(a);
    TrimToLowerCommute(b);
  }

  /** `isStateCode(input)`: the code the cleaned input is a key for, or `None` (`null`). */
  function IsStateCode(input: string): Option<string> {
    var key := Canonical(input);
    if key in StateMapping() then Some(StateMapping()[key]) else None
  }

  /** Where a key of `STATE_MAPPING` comes from: a name property or a code property. */
  lemma KeyOrigin(k: string)
    requires k in StateMapping()
    ensures exists i | 0 <= i < StateCount ::
              StateMapping()[k] == StateAt(i).abbr && (k == StateAt(i).name || k == ToLower(StateAt(i).abbr))
  {
    ToMapValue(NamePairs() + CodePairs(), k);
    var j :| 0 <= j < 2 * StateCount && (NamePairs() + CodePairs())[j] == (k, StateMapping()[k]);
    if j < StateCount {
      assert NamePairs()[j] == (k, StateMapping()[k]);
    } else {
      assert CodePairs()[j - StateCount] == (k, StateMapping()[k]);
    }
  }

  /** Lower-casing is one-to-one on two-letter codes. */
  lemma LowerCodeInjective(a: string, b: string)
    requires IsStateAbbr(a) && IsStateAbbr(b) && ToLower(a) == ToLower(b)
    ensures a == b
  {
    assert LowerChar(a[0]) == LowerChar(b[0]) && LowerChar(a[1]) == LowerChar(b[1]);
  }

  /** A cleaned input that is a state's name resolves to that state's code. */
  lemma NameResolves(i: nat, input: string)
    requires i < StateCount && Canonical(input) == StateAt(i).name
    ensures IsStateCode(input) == Some(StateAt(i).abbr)
  {
    var name := StateAt(i).name;
    assert (NamePairs() + CodePairs())[i].0 == name;
    ToMapKeys(NamePairs() + CodePairs(), name);
    KeyOrigin(name);
    var j :| 0 <= j < StateCount && StateMapping()[name] == StateAt(j).abbr
                                 && (name == StateAt(j).name || name == ToLower(StateAt(j).abbr));
    EntryValid(i);
    EntryValid(j);
    if j != i {
      NamesDistinct(i, j);
    }
  }

  /** A state name is its own cleaned form: trimming, lower-casing and the filter keep it. */
  lemma NameIsCanonical(i: nat)
    requires i < StateCount
    ensures Canonical(StateAt(i).name) == StateAt(i).name
  {
    var name := StateAt(i).name;
    EntryValid(i);
    TrimNoop(name);
    assert ToLower(name) == name by {
      forall j | 0 <= j < |name| ensures LowerChar(name[j]) == name[j] {
        assert NameChar(name[j]);
      }
    }
    forall j | 0 <= j < |name| ensures KeyChar(name[j]) {
      assert NameChar(name[j]);
    }
    FilterAll(name, KeyChar);
  }

  /**
   * Each of the fifty names, written in any letter case ("California", "NEW YORK"), resolves
   * to that state's code.
   */
  lemma NameAnyCaseResolves(i: nat, input: string)
    requires i < StateCount && ToLower(input) == StateAt(i).name
    ensures IsStateCode(input) == Some(StateAt(i).abbr)
  {
    var name := StateAt(i).name;
    NameIsCanonical(i);
    assert ToLower(name) == name by {
      ToLowerIdempotent(input);
    }
    CanonicalIgnoresCase(input, name);
    NameResolves(i, input);
  }

  /** A cleaned input that is a state's code in lower case resolves to that code. */
  lemma CodeResolves(i: nat, input: string)
    requires i < StateCount && Canonical(input) == ToLower(StateAt(i).abbr)
    ensures IsStateCode(input) == Some(StateAt(i).abbr)
  {
    var key := ToLower(StateAt(i).abbr);
    assert (NamePairs() + CodePairs())[StateCount + i].0 == key;
    ToMapKeys(NamePairs() + CodePairs(), key);
    KeyOrigin(key);
    var j :| 0 <= j < StateCount && StateMapping()[key] == StateAt(j).abbr
                                 && (key == StateAt(j).name || key == ToLower(StateAt(j).abbr));
    EntryValid(i);
    EntryValid(j);
    if key == ToLower(StateAt(j).abbr) {
      LowerCodeInjective(StateAt(i).abbr, StateAt(j).abbr);
    }
  }

  /**
   * `isStateCode` finds a code exactly when the cleaned input is a state name or a lower-case
   * code, and what it returns is always one of the fifty codes.
   */
  lemma IsStateCodeMeaning(input: string)
    ensures IsStateCode(input).Some? <==>
              exists i | 0 <= i < StateCount :: Canonical(input) == StateAt(i).name || Canonical(input) == ToLower(StateAt(i).abbr)
    ensures IsStateCode(input).Some? ==>
              exists i | 0 <= i < StateCount :: IsStateCode(input).value == StateAt(i).abbr
  {
    var key := Canonical(input);
    if key in StateMapping() {
      KeyOrigin(key);
    } else if exists i | 0 <= i < StateCount :: key == StateAt(i).name || key == ToLower(StateAt(i).abbr) {
      var i :| 0 <= i < StateCount && (key == StateAt(i).name || key == ToLower(StateAt(i).abbr));
      if key == StateAt(i).name {
        assert (NamePairs() + CodePairs())[i].0 == key;
      } else {
        assert (NamePairs() + CodePairs())[StateCount + i].0 == key;
      }
      ToMapKeys(NamePairs() + CodePairs(), key);
    }
  }

  /** Feeding a returned code back into `isStateCode` returns the same code. */
  lemma IsStateCodeIdempotent(input: string)
    requires IsStateCode(input).Some?
    ensures IsStateCode(IsStateCode(input).value) == IsStateCode(input)
  {
    IsStateCodeMeaning(input);
    var code := IsStateCode(input).value;
    var i :| 0 <= i < StateCount && code == StateAt(i).abbr;
    EntryValid(i);
    CanonicalOfCode(code);
    CodeResolves(i, code);
  }

  /** A two-letter code cleans to itself in lower case. */
  lemma CanonicalOfCode(code: string)
    requires IsStateAbbr(code)
    ensures Canonical(code) == ToLower(code)
  {
    TrimNoop(code);
    var lower := ToLower(code);
    assert KeyChar(lower[0]) && KeyChar(lower[1]);
    FilterAll(lower, KeyChar);
  }

  /** The cleaned key of such an input starts with the white space that followed the non-letter. */
  lemma CleanedStartsWithSpace(input: string)
    requires var t := Trim(input); |t| >= 2 && !IsLower(LowerChar(t[0])) && IsSpace(t[1])
    ensures |Canonical(input)| > 0 && IsSpace(Canonical(input)[0])
  {
    var t := Trim(input);
    var l := ToLower(t);
    SpaceLower(t[0]);
    SpaceLower(t[1]);
    assert !KeyChar(l[0]) && KeyChar(l[1]);
    FilterSkipThenKeep(l, KeyChar);
  }

  /**
   * Characters are removed after trimming, so a non-letter at the start followed by white
   * space leaves a leading space that no key has: "1 CA" or "# NY" are not found.
   */
  lemma LeadingNonLetterNotFound(input: string)
    requires var t := Trim(input); |t| >= 2 && !IsLower(LowerChar(t[0])) && IsSpace(t[1])
    ensures IsStateCode(input) == None
  {
    CleanedStartsWithSpace(input);
    var key := Canonical(input);
    if key in StateMapping() {
      KeyOrigin(key);
      var i :| 0 <= i < StateCount && (key == StateAt(i).name || key == ToLower(StateAt(i).abbr));
      EntryValid(i);
    }
  }

  /** What a property read on an ordinary object finds: its own value or an inherited member. */
  datatype PropertyValue = Own(code: string) | Inherited(member: string)

  /**
   * `constructor` is the one member every object inherits from `Object.prototype` whose name
   * is made only of lower-case letters, so it is the one a cleaned key can reach.
   */
  const InheritedMember: string := "constructor"

  /**
   * `isStateCode` as written: `STATE_MAPPING[cleaned]` is an ordinary property read, so a key
   * that is not an own property still finds the inherited `constructor` (the `Object`
   * function, which is truthy and is returned in place of `null`).
   */
  function IsStateCodeAsWritten(input: string): Option<PropertyValue> {
    var key := Canonical(input);
    if key in StateMapping() then Some(Own(StateMapping()[key]))
    else if key == InheritedMember then Some(Inherited(key))
    else None
  }

  /** "constructor" is not a state name: it sorts between "connecticut" and "delaware". */
  lemma InheritedMemberNotAName(i: nat)
    requires i < StateCount
    ensures StateAt(i).name != InheritedMember
  {
    assert StateAt(6).name == "connecticut" && StateAt(7).name == "delaware";
    assert Below("connecticut", InheritedMember) && Below(InheritedMember, "delaware");
    BelowFromIrreflexive(InheritedMember, 0);
    if i < 6 {
      InOrder(i, 6);
      BelowTrans(StateAt(i).name, "connecticut", InheritedMember);
    } else if i > 7 {
      InOrder(7, i);
      BelowTrans(InheritedMember, "delaware", StateAt(i).name);
    }
  }

  /** Nor is it a code: it is not an own property of `STATE_MAPPING`. */
  lemma InheritedMemberNotAKey()
    ensures InheritedMember !in StateMapping()
  {
    forall i | 0 <= i < StateCount
      ensures StateAt(i).name != InheritedMember && ToLower(StateAt(i).abbr) != InheritedMember
    {
      InheritedMemberNotAName(i);
      EntryValid(i);
    }
    if InheritedMember in StateMapping() {
      KeyOrigin(InheritedMember);
    }
  }

  lemma TrimConstructor()
    ensures Trim("Constructor") == "Constructor"
  {
    TrimNoop("Constructor");
  }

  lemma LowerConstructor()
    ensures ToLower("Constructor") == InheritedMember
  {
  }

  lemma FilterConstructor()
    ensures Filter(InheritedMember, KeyChar) == InheritedMember
  {
    FilterAll(InheritedMember, KeyChar);
  }

  /** "Constructor", in any letter case, cleans to the inherited member's name. */
  lemma ConstructorCleans()
    ensures Canonical("Constructor") == InheritedMember
  {
    TrimConstructor();
    LowerConstructor();
    FilterConstructor();
  }

  /**
   * Where the cleaned input is "constructor" (for example "Constructor", see
   * `ConstructorCleans`), the as-written lookup returns the inherited `Object` function
   * where no state matches.
   */
  lemma AsWrittenFindsConstructor(input: string)
    requires Canonical(input) == InheritedMember
    ensures IsStateCodeAsWritten(input) == Some(Inherited(InheritedMember))
    ensures IsStateCode(input) == None
  {
    InheritedMemberNotAKey();
  }

  /** On every other input the as-written lookup and `IsStateCode` agree. */
  lemma AsWrittenAgreesElsewhere(input: string)
    requires Canonical(input) != InheritedMember
    ensures IsStateCodeAsWritten(input) ==
              (if IsStateCode(input).Some? then Some(Own(IsStateCode(input).value)) else None)
  {
  }
}
