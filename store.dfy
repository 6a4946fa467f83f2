/**
 * The settings store behind `Settings`: an abstract map from a group path and
 * key to a stored value, plus the stack of groups opened with `beginGroup`.
 * The persistence back end (registry or INI file) is not modelled; a store
 * starts from whatever contents it already held.
 */
module Store {
  import opened Wrappers

  /** A C++ `int`. */
  type Int32 = n: int | -0x8000_0000 <= n < 0x8000_0000

  /** The `QVariant` values the program stores and reads back. */
  datatype Variant = Invalid | IntValue(i: Int32) | BoolValue(b: bool) | TextValue(s: string)

  predicate IsDigit(c: char) {
    '0' <= c <= '9'
  }

  predicate AllDigits(s: string) {
    forall i :: 0 <= i < |s| ==> IsDigit(s[i])
  }

  /** The number a string of decimal digits denotes. */
  function DigitsValue(s: string): nat
    requires AllDigits(s)
  {
    if s == [] then 0
    else DigitsValue(s[..|s| - 1]) * 10 + (s[|s| - 1] as int - '0' as int)
  }

  /** An optional sign followed by at least one decimal digit; anything else does not convert. */
  function ParseInteger(s: string): Option<int> {
    if |s| > 1 && (s[0] == '-' || s[0] == '+') && AllDigits(s[1..]) then
      var magnitude: int := DigitsValue(s[1..]);
      Some(if s[0] == '-' then -magnitude else magnitude)
    else if s != [] && AllDigits(s) then
      Some(DigitsValue(s))
    else
      None
  }

  /** Whether `k` fits a C++ `long long`. */
  predicate InInt64(k: int) {
    -0x8000_0000_0000_0000 <= k < 0x8000_0000_0000_0000
  }

  /** The conversion of a `long long` to `int`: the low 32 bits, read as two's complement. */
  function Wrap32(k: int): (n: Int32)
    ensures -0x8000_0000 <= k < 0x8000_0000 ==> n == k
    ensures (k - n) % 0x1_0000_0000 == 0
  {
    (k + 0x8000_0000) % 0x1_0000_0000 - 0x8000_0000
  }

  /**
   * `QVariant::toInt()`: an int as it is, a bool as 1 or 0, and 0 for an
   * invalid variant. Text is converted as a `long long` first: text that is
   * no decimal integer, or one beyond the range of `long long`, gives 0; any
   * other integer is narrowed to `int` without a range check.
   */
  function ToInt(v: Variant): (n: Int32)
    ensures v.IntValue? ==> n == v.i
    ensures v.BoolValue? ==> (n == 1 <==> v.b) && (n == 0 <==> !v.b)
    ensures v.Invalid? ==> n == 0
    ensures v.TextValue? && ParseInteger(v.s).None? ==> n == 0
    ensures v.TextValue? && ParseInteger(v.s).Some? && !InInt64(ParseInteger(v.s).value) ==> n == 0
    ensures v.TextValue? && ParseInteger(v.s).Some? && -0x8000_0000 <= ParseInteger(v.s).value < 0x8000_0000
            ==> n == ParseInteger(v.s).value
    ensures v.TextValue? && ParseInteger(v.s).Some? && InInt64(ParseInteger(v.s).value)
            ==> (ParseInteger(v.s).value - n) % 0x1_0000_0000 == 0
  {
    match v
    case Invalid => 0
    case IntValue(i) => i
    case BoolValue(b) => if b then 1 else 0
    case TextValue(s) =>
      match ParseInteger(s)
      case Some(k) => if InInt64(k) then Wrap32(k) else 0
      case None => 0
  }

  function Digit(d: nat): (c: char)
    requires d < 10
    ensures IsDigit(c) && c as int - '0' as int == d
  {
    ('0' as int + d) as char
  }

  /** The decimal digits of `n`, most significant first. */
  function DigitString(n: nat): (s: string)
    ensures s != [] && AllDigits(s)
  {
    if n < 10 then [Digit(n)] else DigitString(n / 10) + [Digit(n % 10)]
  }

  /** `QVariant(int).toString()`: the text form of an int. */
  function FormatInteger(n: int): string {
    if n < 0 then "-" + DigitString(-n) else DigitString(n)
  }

  lemma {:induction false} DigitStringValue(n: nat)
    ensures DigitsValue(DigitString(n)) == n
  {
    if n >= 10 {
      var s := DigitString(n);
      assert s[..|s| - 1] == DigitString(n / 10);
      DigitStringValue(n / 10);
    }
  }

  /** A minus sign before decimal digits parses as the negated value of the digits. */
  lemma ParseNegative(d: string)
    requires d != [] && AllDigits(d)
    ensures ParseInteger("-" + d) == Some(-(DigitsValue(d) as int))
  {
    assert ("-" + d)[1..] == d;
  }

  /** Text written from an integer converts back to that integer. */
  lemma ParseFormatted(n: int)
    ensures ParseInteger(FormatInteger(n)) == Some(n)
  {
    if n < 0 {
      DigitStringValue(-n);
      ParseNegative(DigitString(-n));
    } else {
      var s := DigitString(n);
      assert IsDigit(s[0]);
      DigitStringValue(n);
    }
  }

  /** An int stored as text (as an INI file keeps it) reads back through `toInt` as the same int. */
  lemma TextRoundTrip(n: Int32)
    ensures ToInt(TextValue(FormatInteger(n))) == n
  {
    ParseFormatted(n);
  }

  /**
   * The text of any `long long` reads back through `toInt` as its low 32
   * bits: "4294967298" reads back as 2.
   */
  lemma WideTextWraps(n: int)
    requires InInt64(n)
    ensures ToInt(TextValue(FormatInteger(n))) == Wrap32(n)
    ensures n == 0x1_0000_0002 ==> Wrap32(n) == 2
  {
    ParseFormatted(n);
  }

  /** Where a store keeps its data; chosen once, by the `Settings` constructor. */
  datatype Backend = NativeStore(organization: string, application: string) | IniFile(fileName: string)

  /** A key qualified by the groups open around it: the sections of their names, outermost first. */
  type Path = seq<string>

  /** The length of the first section of `s`: the characters before its first '/'. */
  function SectionLength(s: string): (n: nat)
    ensures n <= |s|
    ensures forall i :: 0 <= i < n ==> s[i] != '/'
    ensures n < |s| ==> s[n] == '/'
  {
    if s == [] || s[0] == '/' then 0 else 1 + SectionLength(s[1..])
  }

  /**
   * The sections of a group name or key, as `QSettings` normalises it: the
   * text is split at every '/', and empty sections (from a leading, trailing
   * or doubled '/') are dropped.
   */
  function Sections(s: string): (r: seq<string>)
    ensures forall i :: 0 <= i < |r| ==> r[i] != [] && '/' !in r[i]
    decreases |s|
  {
    if s == [] then []
    else if s[0] == '/' then Sections(s[1..])
    else
      var n := SectionLength(s);
      [s[..n]] + Sections(s[n..])
  }

  lemma {:induction false} SectionLengthOfPlain(s: string)
    requires '/' !in s
    ensures SectionLength(s) == |s|
  {
    if s != [] {
      assert s[0] in s;
      assert forall c :: c in s[1..] ==> c in s;
      SectionLengthOfPlain(s[1..]);
    }
  }

  /** A non-empty name without '/' is a single section. */
  lemma SingleSection(s: string)
    requires s != [] && '/' !in s
    ensures Sections(s) == [s]
  {
    assert s[0] in s;
    SectionLengthOfPlain(s);
    assert s[..|s|] == s && s[|s|..] == [];
  }

  lemma {:induction false} SectionLengthExtend(a: string, t: string)
    requires SectionLength(a) < |a| || (t != [] && t[0] == '/')
    ensures SectionLength(a + t) == SectionLength(a)
  {
    if a != [] && a[0] != '/' {
      assert (a + t)[1..] == a[1..] + t;
      SectionLengthExtend(a[1..], t);
    }
  }

  /** Joining two names with '/' joins their sections. */
  lemma {:induction false} SectionsJoin(a: string, b: string)
    ensures Sections(a + "/" + b) == Sections(a) + Sections(b)
    decreases |a|
  {
    var s := a + "/" + b;
    if a == [] {
      assert s[1..] == b;
    } else if a[0] == '/' {
      assert s[1..] == a[1..] + "/" + b;
      SectionsJoin(a[1..], b);
    } else {
      var n := SectionLength(a);
      SectionLengthExtend(a, "/" + b);
      assert s == a + ("/" + b);
      assert s[..n] == a[..n];
      assert s[n..] == a[n..] + "/" + b;
      SectionsJoin(a[n..], b);
    }
  }

  /** The path prefix the open groups make: the sections of each group name, outermost first. */
  function GroupPrefix(groups: seq<string>): Path
    decreases |groups|
  {
    if groups == [] then [] else GroupPrefix(groups[..|groups| - 1]) + Sections(groups[|groups| - 1])
  }

  /** Where `key` lives with `groups` open. */
  function KeyPath(groups: seq<string>, key: string): Path {
    GroupPrefix(groups) + Sections(key)
  }

  /** With plain names (non-empty, no '/'), the path is the groups followed by the key. */
  lemma {:induction false} PlainKeyPath(groups: seq<string>, key: string)
    requires forall i :: 0 <= i < |groups| ==> groups[i] != [] && '/' !in groups[i]
    requires key != [] && '/' !in key
    ensures KeyPath(groups, key) == groups + [key]
    decreases |groups|
  {
    SingleSection(key);
    if groups != [] {
      var last := groups[|groups| - 1];
      PlainKeyPath(groups[..|groups| - 1], last);
      assert groups[..|groups| - 1] + [last] == groups;
    }
  }

  /** A group whose name is empty adds nothing to the paths of the keys inside it. */
  lemma EmptyGroupAddsNothing(groups: seq<string>, key: string)
    ensures KeyPath(groups + [""], key) == KeyPath(groups, key)
  {
    assert (groups + [""])[..|groups|] == groups;
  }

  /** A '/' inside a key reaches the same entry as a group of that name. */
  lemma SlashOpensGroup(groups: seq<string>, a: string, b: string)
    ensures KeyPath(groups, a + "/" + b) == KeyPath(groups + [a], b)
  {
    SectionsJoin(a, b);
    assert (groups + [a])[..|groups|] == groups;
  }

  /** `QSettings::value(key, default)`: the stored value, or the default when nothing is stored there. */
  function Lookup(entries: map<Path, Variant>, path: Path, default: Variant): (v: Variant)
    ensures path in entries ==> v == entries[path]
    ensures path !in entries ==> v == default
  {
    if path in entries then entries[path] else default
  }

  /** A `QSettings` object, reduced to its entries and its open groups. */
  class SettingsStore {
    const backend: Backend
    var entries: map<Path, Variant>
    var groups: seq<string>

    /** A store that opens `backend` and finds `persisted` already in it, with no group open. */
    constructor (backend: Backend, persisted: map<Path, Variant>)
      ensures this.backend == backend
      ensures entries == persisted && groups == []
    {
      this.backend := backend;
      entries := persisted;
      groups := [];
    }

    /** `beginGroup(g)`: keys are now read and written under `g`, inside the groups already open. */
    method BeginGroup(g: string)
      modifies this`groups
      ensures groups == old(groups) + [g]
    {
      groups := groups + [g];
    }

    /** `endGroup()`: closes the innermost group; with none open it changes nothing. */
    method EndGroup()
      modifies this`groups
      ensures old(groups) == [] ==> groups == []
      ensures old(groups) != [] ==> groups == old(groups)[..|old(groups)| - 1]
    {
      if groups != [] {
        groups := groups[..|groups| - 1];
      }
    }

    /**
     * `value(key, default)` under the open groups: the stored value, or the
     * default when nothing is stored there. An empty key reads as an
     * invalid variant whatever the default.
     */
    function Value(key: string, default: Variant): (v: Variant)
      reads this
      ensures key == [] ==> v == Invalid
      ensures key != [] && KeyPath(groups, key) in entries ==> v == entries[KeyPath(groups, key)]
      ensures key != [] && KeyPath(groups, key) !in entries ==> v == default
    {
      if key == [] then Invalid else Lookup(entries, KeyPath(groups, key), default)
    }

    /**
     * `setValue(key, v)` under the open groups: that entry becomes `v` and
     * every other entry stays. An empty key is refused and changes nothing.
     */
    method SetValue(key: string, v: Variant)
      modifies this`entries
      ensures key == [] ==> entries == old(entries)
      ensures key != [] ==> entries == old(entries)[KeyPath(groups, key) := v]
    {
      if key != [] {
        entries := entries[KeyPath(groups, key) := v];
      }
    }
  }
}
