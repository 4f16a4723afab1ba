/** The read-only input of the generators: ontology individuals, their classes
    and their data-property assertions, and the conversions every generator
    applies to property names and literals. */
module Ontology {
  import opened Wrappers
  import opened Text
  import OrderedMaps

  /** One individual of the loaded ontology: its local name, the names of the
      classes it is asserted to belong to (`is_a`), its data-property
      assertions keyed by lower-cased property name, and the individuals it
      is linked to by the `binds` object property. Every literal is held in
      its string form. */
  datatype Instance = Instance(
    name: string,
    classNames: seq<string>,
    props: map<string, seq<string>>,
    binds: seq<Instance>)

  /** The values asserted for property `p` (`getattr(inst, p, [])`). */
  function Values(inst: Instance, p: string): seq<string> {
    if p in inst.props then inst.props[p] else []
  }

  /** `{prop.name.lower(): prop for prop in onto.data_properties()}`: the data
      property names of the ontology, each once, in declaration order. */
  function DataProperties(registry: seq<string>): (props: seq<string>)
    ensures OrderedMaps.Distinct(props)
    ensures forall p :: p in props <==> p in registry
  {
    OrderedMaps.AddNewGrows([], registry);
    OrderedMaps.Dedup(registry)
  }

  /** Python truthiness of an optional string (`None` and `""` are false). */
  predicate Truthy(o: Option<string>) {
    o.Some? && o.value != ""
  }

  const ENV_PREFIX := "env_"

  /** `prop_name.replace("env_", "").upper()`: the environment variable a
      property named `env_...` stands for. */
  function EnvKey(p: string): string {
    ToUpper(ReplaceAll(p, ENV_PREFIX, ""))
  }

  // ---------------------------------------------------------------
  // int(): decimal integers with optional sign and surrounding blanks
  // ---------------------------------------------------------------

  predicate IsDigit(c: char) {
    '0' <= c <= '9'
  }

  predicate IsBlank(c: char) {
    c == ' ' || c == '\t' || c == '\n' || c == '\r' || c == '\U{000B}' || c == '\U{000C}'
  }

  predicate AllDigits(s: string) {
    forall i :: 0 <= i < |s| ==> IsDigit(s[i])
  }

  function StripLeft(s: string): (r: string)
    ensures |r| <= |s|
    decreases |s|
  {
    if s != [] && IsBlank(s[0]) then StripLeft(s[1..]) else s
  }

  function StripRight(s: string): (r: string)
    ensures |r| <= |s|
    decreases |s|
  {
    if s != [] && IsBlank(s[|s| - 1]) then StripRight(s[..|s| - 1]) else s
  }

  /** The value of a string of decimal digits. */
  function DigitsValue(ds: string): nat
    requires AllDigits(ds)
  {
    if ds == [] then 0
    else DigitsValue(ds[..|ds| - 1]) * 10 + (ds[|ds| - 1] as int - '0' as int)
  }

  /** Python `int(s)` on a string: `Some(n)` when it accepts `s`, `None` when
      it raises `ValueError`. */
  function ParseInt(s: string): Option<int> {
    var t := StripRight(StripLeft(s));
    if |t| > 1 && (t[0] == '-' || t[0] == '+') && AllDigits(t[1..]) then
      var v: int := DigitsValue(t[1..]);
      Some(if t[0] == '-' then -v else v)
    else if |t| > 0 && AllDigits(t) then
      Some(DigitsValue(t))
    else
      None
  }

  /** The decimal rendering of a natural number. */
  function NatToString(n: nat): (s: string)
    ensures |s| > 0 && AllDigits(s)
  {
    if n < 10 then ['0' + n as char]
    else NatToString(n / 10) + ['0' + (n % 10) as char]
  }

  /** Python `str(i)` on an integer. */
  function IntToString(i: int): string {
    if i < 0 then "-" + NatToString(-i) else NatToString(i)
  }

  lemma {:induction false} NatToStringValue(n: nat)
    ensures DigitsValue(NatToString(n)) == n
  {
    if n >= 10 {
      NatToStringValue(n / 10);
      var s := NatToString(n);
      assert s[..|s| - 1] == NatToString(n / 10);
    }
  }

  /** `int(str(i)) == i`: the parse accepts every rendered integer and gives
      it back. */
  lemma ParseIntRoundTrip(i: int)
    ensures ParseInt(IntToString(i)) == Some(i)
  {
    var s := IntToString(i);
    assert StripLeft(s) == s;
    assert StripRight(s) == s;
    if i < 0 {
      assert s[1..] == NatToString(-i);
      NatToStringValue(-i);
    } else {
      NatToStringValue(i);
    }
  }

  /** A printable ASCII character no decimal literal holds: anything but a
      digit, a sign or an underscore (a letter, "/", "."). */
  predicate IsForeignToIntegers(c: char) {
    '!' <= c <= '~' && !IsDigit(c) && c != '-' && c != '+' && c != '_'
  }

  /** `int()` rejects a string holding such a character ("N/A", "TEN",
      "3.5"), so the replica fallbacks apply. */
  lemma ParseIntRejectsNonDigit(s: string, k: nat)
    requires k < |s| && IsForeignToIntegers(s[k])
    ensures ParseInt(s) == None
  {
    var t := StripRight(StripLeft(s));
    StripKeeps(s, k);
    var j :| 0 <= j < |t| && t[j] == s[k];
    if j > 0 {
      assert t[1..][j - 1] == t[j];
    }
  }

  /** Stripping blanks keeps every character that is not a blank. */
  lemma {:induction false} StripKeeps(s: string, k: nat)
    requires k < |s| && !IsBlank(s[k])
    ensures exists j :: 0 <= j < |StripRight(StripLeft(s))| && StripRight(StripLeft(s))[j] == s[k]
  {
    var l, kl := StripLeftKeeps(s, k);
    var r, kr := StripRightKeeps(l, kl);
  }

  lemma {:induction false} StripLeftKeeps(s: string, k: nat) returns (l: string, j: nat)
    requires k < |s| && !IsBlank(s[k])
    ensures l == StripLeft(s) && j < |l| && l[j] == s[k]
    decreases |s|
  {
    if s != [] && IsBlank(s[0]) {
      l, j := StripLeftKeeps(s[1..], k - 1);
    } else {
      l, j := s, k;
    }
  }

  lemma {:induction false} StripRightKeeps(s: string, k: nat) returns (r: string, j: nat)
    requires k < |s| && !IsBlank(s[k])
    ensures r == StripRight(s) && j < |r| && r[j] == s[k]
    decreases |s|
  {
    if s != [] && IsBlank(s[|s| - 1]) {
      r, j := StripRightKeeps(s[..|s| - 1], k);
    } else {
      r, j := s, k;
    }
  }

  // ---------------------------------------------------------------
  // The data of one instance
  // ---------------------------------------------------------------

  /** The first value of every data property the instance
      has values for, keyed by property name, in property order. */
  function FirstValues(inst: Instance, props: seq<string>): seq<(string, string)>
  {
    if props == [] then []
    else
      var p := props[|props| - 1];
      FirstValues(inst, props[..|props| - 1])
        + (if Values(inst, p) == [] then [] else [(p, Values(inst, p)[0])])
  }

  /** Reading it: a property maps to its first value iff it is a
      data property the instance has values for. */
  lemma {:induction false} FirstValuesGet(inst: Instance, props: seq<string>, p: string)
    ensures OrderedMaps.Get(FirstValues(inst, props), p)
         == if p in props && Values(inst, p) != [] then Some(Values(inst, p)[0]) else None
  {
    if props != [] {
      var n := |props| - 1;
      FirstValuesGet(inst, props[..n], p);
      assert props == props[..n] + [props[n]];
      assert p in props <==> p in props[..n] || p == props[n];
      if Values(inst, props[n]) != [] {
        OrderedMaps.GetAppend(FirstValues(inst, props[..n]), (props[n], Values(inst, props[n])[0]), p);
      } else {
        assert FirstValues(inst, props) == FirstValues(inst, props[..n]);
      }
    }
  }

  lemma {:induction false} FirstValuesKeys(inst: Instance, props: seq<string>)
    ensures forall k :: k in OrderedMaps.Keys(FirstValues(inst, props)) ==> k in props
  {
    if props != [] {
      var n := |props| - 1;
      FirstValuesKeys(inst, props[..n]);
      assert props == props[..n] + [props[n]];
    }
  }


  /** The `env_` entries of an instance's data, as (variable, value) in order. */
  function EnvPairs(data: seq<(string, string)>): seq<(string, string)> {
    if data == [] then []
    else
      var last := data[|data| - 1];
      EnvPairs(data[..|data| - 1])
        + (if StartsWith(last.0, ENV_PREFIX) then [(EnvKey(last.0), last.1)] else [])
  }

  /** Data without an `env_` property has no environment entries. */
  lemma {:induction false} EnvPairsNone(data: seq<(string, string)>)
    requires forall i :: 0 <= i < |data| ==> !StartsWith(data[i].0, ENV_PREFIX)
    ensures EnvPairs(data) == []
  {
    if data != [] {
      EnvPairsNone(data[..|data| - 1]);
    }
  }

  /** With distinct property names, the data has distinct keys. */
  lemma {:induction false} FirstValuesDistinct(inst: Instance, props: seq<string>)
    requires OrderedMaps.Distinct(props)
    ensures OrderedMaps.Distinct(OrderedMaps.Keys(FirstValues(inst, props)))
  {
    if props != [] {
      var n := |props| - 1;
      FirstValuesDistinct(inst, props[..n]);
      FirstValuesKeys(inst, props[..n]);
      assert props[n] !in props[..n];
    }
  }
}
