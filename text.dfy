/** The string operations the handlers use to render their text views. */
module Text {
  import opened Wrappers

  /** `parts.join(sep)`. */
  function Join(parts: seq<string>, sep: string): (s: string)
    ensures parts != [] ==> parts[0] <= s
    decreases |parts|
  {
    if parts == [] then ""
    else if |parts| == 1 then parts[0]
    else parts[0] + sep + Join(parts[1..], sep)
  }

  /** A value interpolated into a template literal: an absent one reads "undefined". */
  function Display(o: Option<string>): string {
    match o
    case Some(s) => s
    case None => "undefined"
  }

  /** A boolean interpolated into a template literal. */
  function BoolText(b: bool): string {
    if b then "true" else "false"
  }

  /** `[slot, ...].filter(Boolean)` over slots that are a non-empty fragment or a falsy value. */
  function Compact(slots: seq<Option<string>>): (r: seq<string>)
    ensures |r| <= |slots|
    ensures forall x :: x in r <==> Some(x) in slots
    decreases |slots|
  {
    if slots == [] then []
    else (if slots[0].Some? then [slots[0].value] else []) + Compact(slots[1..])
  }

  /** The fragment a single slot contributes. */
  function Emit(slot: Option<string>): seq<string> {
    if slot.Some? then [slot.value] else []
  }

  /** A slot in front contributes its own fragment, ahead of the rest. */
  lemma CompactCons(slot: Option<string>, rest: seq<Option<string>>)
    ensures Compact([slot] + rest) == Emit(slot) + Compact(rest)
  {
  }

  /** Six slots compact to their fragments, in order. */
  lemma CompactSix(s0: Option<string>, s1: Option<string>, s2: Option<string>,
                   s3: Option<string>, s4: Option<string>, s5: Option<string>)
    ensures Compact([s0, s1, s2, s3, s4, s5]) == Emit(s0) + (Emit(s1) + (Emit(s2) + (Emit(s3) + (Emit(s4) + Emit(s5)))))
  {
    var t5 := [s5];
    var t4 := [s4] + t5;
    var t3 := [s3] + t4;
    var t2 := [s2] + t3;
    var t1 := [s1] + t2;
    assert [s0, s1, s2, s3, s4, s5] == [s0] + t1;
    CompactCons(s5, []);
    assert t5 == [s5] + [];
    assert Compact(t5) == Emit(s5);
    CompactCons(s4, t5);
    CompactCons(s3, t4);
    CompactCons(s2, t3);
    CompactCons(s1, t2);
    CompactCons(s0, t1);
  }

  /** Compacting distributes over concatenation: surviving fragments keep their order. */
  lemma {:induction false} CompactAppend(a: seq<Option<string>>, b: seq<Option<string>>)
    ensures Compact(a + b) == Compact(a) + Compact(b)
    decreases |a|
  {
    if a == [] {
      assert a + b == b;
    } else {
      assert (a + b)[0] == a[0];
      assert (a + b)[1..] == a[1..] + b;
      CompactAppend(a[1..], b);
    }
  }

  /** `xs.map(x => `${prefix}${x}${suffix}`)`. */
  function Framed(prefix: string, xs: seq<string>, suffix: string): (r: seq<string>)
    ensures |r| == |xs|
    ensures forall i :: 0 <= i < |xs| ==> r[i] == prefix + xs[i] + suffix
  {
    seq(|xs|, i requires 0 <= i < |xs| => prefix + xs[i] + suffix)
  }

  predicate IsDigits(s: string) {
    forall i :: 0 <= i < |s| ==> '0' <= s[i] <= '9'
  }

  function DigitChar(d: nat): (c: char)
    requires d < 10
    ensures '0' <= c <= '9' && c as int - '0' as int == d
  {
    ('0' as int + d) as char
  }

  /** Decimal rendering of a count, as `${n}` does for a non-negative integer. */
  function NatToString(n: nat): (s: string)
    ensures s != [] && IsDigits(s)
    decreases n
  {
    if n < 10 then [DigitChar(n)] else NatToString(n / 10) + [DigitChar(n % 10)]
  }

  /** The number a string of decimal digits denotes. */
  function DigitsValue(s: string): nat
    requires IsDigits(s)
    decreases |s|
  {
    if s == [] then 0 else DigitsValue(s[..|s| - 1]) * 10 + (s[|s| - 1] as int - '0' as int)
  }

  /** Reading back a rendered count gives the count: the text's numbers mean what they say. */
  lemma {:induction false} NatToStringRoundTrip(n: nat)
    ensures DigitsValue(NatToString(n)) == n
    decreases n
  {
    if n >= 10 {
      NatToStringRoundTrip(n / 10);
      var s := NatToString(n / 10) + [DigitChar(n % 10)];
      assert s[..|s| - 1] == NatToString(n / 10);
    }
  }

  /** Different counts render differently. */
  lemma NatToStringInjective(m: nat, n: nat)
    requires NatToString(m) == NatToString(n)
    ensures m == n
  {
    NatToStringRoundTrip(m);
    NatToStringRoundTrip(n);
  }
}
