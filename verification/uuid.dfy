/**
 The scripts' `uuidv4`: every `x` and `y` of the template
 `xxxxxxxx-xxxx-4xxx-yxxx-xxxxxxxxxxxx` is replaced, left to right, by one
 hex digit drawn from `(Math.random() * 16) | 0`; for `y` the drawn nibble
 `r` becomes `(r & 0x3) | 0x8`. This is the layout of section 4.4 of RFC 4122:
 version nibble 4 and variant bits `10`.
 */
module Uuid {
  import opened Draws

  const Template: string := "xxxxxxxx-xxxx-4xxx-yxxx-xxxxxxxxxxxx"
  const HexDigits: string := "0123456789abcdef"

  predicate IsSlot(c: char) {
    c == 'x' || c == 'y'
  }

  predicate IsLowerHex(c: char) {
    c in HexDigits
  }

  predicate IsVariantHex(c: char) {
    c in "89ab"
  }

  predicate AllNibbles(ns: seq<nat>) {
    forall i :: 0 <= i < |ns| ==> ns[i] < 16
  }

  /** `(Math.random() * 16) | 0` */
  function Nibble(u: real): (n: nat)
    requires IsDraw(u)
    ensures n < 16
  {
    Scaled(u, 16)
  }

  /** The `y` nibble: the two low bits of the draw under the variant bits `10`. */
  function Variant(r: nat): (v: nat)
    requires r < 16
    ensures 8 <= v < 12
  {
    8 + r % 4
  }

  /** `Variant` is the source's `(r & 0x3) | 0x8`, and it is idempotent. */
  lemma VariantIsMask(r: nat)
    requires r < 16
    ensures Variant(r) == (((r as bv8) & 3) | 8) as nat
    ensures Variant(Variant(r)) == Variant(r)
  {
  }

  /** `v.toString(16)` for a nibble: one lower-case hex digit. */
  function HexChar(v: nat): (c: char)
    requires v < 16
    ensures IsLowerHex(c)
    ensures HexValue(c) == v
  {
    HexDigits[v]
  }

  /** The nibble a lower-case hex digit stands for. */
  function HexValue(c: char): (v: nat)
    ensures IsLowerHex(c) ==> v < 16 && HexDigits[v] == c
  {
    if '0' <= c <= '9' then (c as int) - ('0' as int)
    else if 'a' <= c <= 'f' then (c as int) - ('a' as int) + 10
    else 0
  }

  function Occurrences(t: string, c: char): nat {
    if |t| == 0 then 0 else (if t[0] == c then 1 else 0) + Occurrences(t[1..], c)
  }

  /** The number of characters of `t` that the replacement touches. */
  function Slots(t: string): nat {
    Occurrences(t, 'x') + Occurrences(t, 'y')
  }

  /** The replacement: slots consume the nibbles in order, every other character is kept. */
  function Fill(t: string, ns: seq<nat>): (s: string)
    requires |ns| == Slots(t) && AllNibbles(ns)
    ensures |s| == |t|
    decreases |t|
  {
    if |t| == 0 then ""
    else if t[0] == 'x' then [HexChar(ns[0])] + Fill(t[1..], ns[1..])
    else if t[0] == 'y' then [HexChar(Variant(ns[0]))] + Fill(t[1..], ns[1..])
    else [t[0]] + Fill(t[1..], ns)
  }

  /** Character `sc` can stand where the template has `tc`. */
  predicate Fits(tc: char, sc: char) {
    if tc == 'x' then IsLowerHex(sc)
    else if tc == 'y' then IsVariantHex(sc)
    else sc == tc
  }

  /** `s` is one of the strings the replacement can produce from `t`. */
  predicate Conforms(t: string, s: string) {
    |s| == |t| && forall i :: 0 <= i < |t| ==> Fits(t[i], s[i])
  }

  lemma {:induction false} FillConforms(t: string, ns: seq<nat>)
    requires |ns| == Slots(t) && AllNibbles(ns)
    ensures Conforms(t, Fill(t, ns))
    decreases |t|
  {
    if |t| > 0 {
      var rest := if IsSlot(t[0]) then ns[1..] else ns;
      FillConforms(t[1..], rest);
      var s := Fill(t, ns);
      assert s[1..] == Fill(t[1..], rest);
      forall i | 0 <= i < |t|
        ensures Fits(t[i], s[i])
      {
        if i > 0 {
          assert s[i] == s[1..][i - 1] && t[i] == t[1..][i - 1];
        } else if t[0] == 'y' {
          assert HexDigits[Variant(ns[0])] in "89ab";
        }
      }
    }
  }

  /** The nibbles a conforming string carries in its slots; the partner of `Fill`. */
  function Unfill(t: string, s: string): (ns: seq<nat>)
    requires |s| == |t|
    ensures |ns| == Slots(t)
    decreases |t|
  {
    if |t| == 0 then []
    else if IsSlot(t[0]) then [HexValue(s[0])] + Unfill(t[1..], s[1..])
    else Unfill(t[1..], s[1..])
  }

  /** The nibbles as the replacement actually uses them: a `y` slot keeps only its variant form. */
  function Canonical(t: string, ns: seq<nat>): (cs: seq<nat>)
    requires |ns| == Slots(t) && AllNibbles(ns)
    ensures |cs| == |ns| && AllNibbles(cs)
    decreases |t|
  {
    if |t| == 0 then []
    else if t[0] == 'x' then [ns[0]] + Canonical(t[1..], ns[1..])
    else if t[0] == 'y' then [Variant(ns[0])] + Canonical(t[1..], ns[1..])
    else Canonical(t[1..], ns)
  }

  /** Reading the slots back gives the nibbles that were written (in their variant form). */
  lemma {:induction false} UnfillFill(t: string, ns: seq<nat>)
    requires |ns| == Slots(t) && AllNibbles(ns)
    ensures Unfill(t, Fill(t, ns)) == Canonical(t, ns)
    decreases |t|
  {
    if |t| > 0 {
      var s := Fill(t, ns);
      if IsSlot(t[0]) {
        UnfillFill(t[1..], ns[1..]);
        assert s[1..] == Fill(t[1..], ns[1..]);
      } else {
        UnfillFill(t[1..], ns);
        assert s[1..] == Fill(t[1..], ns);
      }
    }
  }

  /** A slot character is rewritten by its own nibble. */
  lemma SlotRoundTrip(c: char)
    ensures IsLowerHex(c) ==> HexValue(c) < 16 && HexChar(HexValue(c)) == c
    ensures IsVariantHex(c) ==> IsLowerHex(c) && Variant(HexValue(c)) == HexValue(c)
  {
    if IsVariantHex(c) {
      assert c == '8' || c == '9' || c == 'a' || c == 'b';
    }
  }

  /** Every conforming string is produced, from the nibbles it carries. */
  lemma FillUnfill(t: string, s: string)
    requires Conforms(t, s)
    ensures AllNibbles(Unfill(t, s))
    ensures Fill(t, Unfill(t, s)) == s
  {
    FillUnfillFrom(t, s, 0);
    assert t[0..] == t && s[0..] == s;
  }

  /** `FillUnfill` for the suffixes from position `k`. */
  lemma {:induction false} FillUnfillFrom(t: string, s: string, k: nat)
    requires Conforms(t, s) && k <= |t|
    ensures AllNibbles(Unfill(t[k..], s[k..]))
    ensures Fill(t[k..], Unfill(t[k..], s[k..])) == s[k..]
    decreases |t| - k
  {
    if k < |t| {
      FillUnfillFrom(t, s, k + 1);
      var tk, sk := t[k..], s[k..];
      assert tk[0] == t[k] && sk[0] == s[k];
      assert tk[1..] == t[k + 1..] && sk[1..] == s[k + 1..];
      assert Fits(t[k], s[k]);
      SlotRoundTrip(s[k]);
      var rest := Unfill(t[k + 1..], s[k + 1..]);
      var ns := Unfill(tk, sk);
      if IsSlot(t[k]) {
        assert ns == [HexValue(s[k])] + rest;
        assert ns[1..] == rest;
      } else {
        assert ns == rest;
      }
      assert sk == [s[k]] + s[k + 1..];
    }
  }

  /** Two nibble sequences give the same key exactly when they agree after the variant masking. */
  lemma FillInjective(t: string, a: seq<nat>, b: seq<nat>)
    requires |a| == Slots(t) && AllNibbles(a)
    requires |b| == Slots(t) && AllNibbles(b)
    ensures Fill(t, a) == Fill(t, b) <==> Canonical(t, a) == Canonical(t, b)
  {
    UnfillFill(t, a);
    UnfillFill(t, b);
    if Canonical(t, a) == Canonical(t, b) {
      CanonicalFill(t, a);
      CanonicalFill(t, b);
    }
  }

  /** Filling with the canonical nibbles changes nothing. */
  lemma {:induction false} CanonicalFill(t: string, ns: seq<nat>)
    requires |ns| == Slots(t) && AllNibbles(ns)
    ensures Fill(t, Canonical(t, ns)) == Fill(t, ns)
    decreases |t|
  {
    if |t| > 0 {
      var cs := Canonical(t, ns);
      if t[0] == 'x' {
        CanonicalFill(t[1..], ns[1..]);
        assert cs == [ns[0]] + Canonical(t[1..], ns[1..]);
        assert cs[1..] == Canonical(t[1..], ns[1..]);
      } else if t[0] == 'y' {
        CanonicalFill(t[1..], ns[1..]);
        assert cs == [Variant(ns[0])] + Canonical(t[1..], ns[1..]);
        assert cs[1..] == Canonical(t[1..], ns[1..]);
        VariantIsMask(ns[0]);
      } else {
        CanonicalFill(t[1..], ns);
      }
    }
  }

  /** The key format, stated position by position. */
  predicate IsV4Key(s: string) {
    && |s| == 36
    && s[8] == '-' && s[13] == '-' && s[18] == '-' && s[23] == '-'
    && s[14] == '4'
    && IsVariantHex(s[19])
    && forall i :: 0 <= i < 36 && i !in {8, 13, 14, 18, 19, 23} ==> IsLowerHex(s[i])
  }

  /** The character the template holds at position `i`. */
  function TemplateAt(i: nat): char {
    if i == 8 || i == 13 || i == 18 || i == 23 then '-'
    else if i == 14 then '4'
    else if i == 19 then 'y'
    else 'x'
  }

  /** The template, position by position. */
  lemma TemplateShape()
    ensures |Template| == 36
    ensures forall i :: 0 <= i < 36 ==> Template[i] == TemplateAt(i)
  {
  }

  /** Conforming to the template is exactly the key format. */
  lemma ConformsIsV4Key(s: string)
    ensures Conforms(Template, s) <==> IsV4Key(s)
  {
    TemplateShape();
  }

  function Above(n: nat, k: nat): nat {
    if n <= k then 1 else 0
  }

  /** Slot counts of the suffix from `n` of any string shaped like the template. */
  lemma {:induction false} TemplateCountsFrom(t: string, n: nat)
    requires |t| == 36 && forall i :: 0 <= i < 36 ==> t[i] == TemplateAt(i)
    requires n <= 36
    ensures Occurrences(t[n..], 'x')
            == (36 - n) - (Above(n, 8) + Above(n, 13) + Above(n, 14) + Above(n, 18) + Above(n, 19) + Above(n, 23))
    ensures Occurrences(t[n..], 'y') == Above(n, 19)
    decreases 36 - n
  {
    if n < 36 {
      var tail := t[n..];
      assert tail[0] == TemplateAt(n);
      assert tail[1..] == t[n + 1..];
      TemplateCountsFrom(t, n + 1);
    }
  }

  /** The template has 30 `x` slots and one `y` slot: 30 * 4 + 2 = 122 random bits per key. */
  lemma TemplateSlots()
    ensures Occurrences(Template, 'x') == 30 && Occurrences(Template, 'y') == 1
    ensures Slots(Template) == 31
  {
    TemplateShape();
    TemplateCountsFrom(Template, 0);
    assert Template[0..] == Template;
  }

  /** The key written from 31 nibbles. */
  function KeyOf(ns: seq<nat>): (key: string)
    requires |ns| == 31 && AllNibbles(ns)
    ensures IsV4Key(key)
  {
    TemplateSlots();
    var key := Fill(Template, ns);
    FillConforms(Template, ns);
    ConformsIsV4Key(key);
    key
  }

  /** Every string of the key format is written from the nibbles it carries. */
  lemma EveryKeyIsWritten(s: string)
    requires IsV4Key(s)
    ensures |Unfill(Template, s)| == 31 && AllNibbles(Unfill(Template, s))
    ensures KeyOf(Unfill(Template, s)) == s
  {
    ConformsIsV4Key(s);
    TemplateSlots();
    FillUnfill(Template, s);
  }

  /** The 31 nibbles as the template uses them: the `y` nibble reduced to its variant form. */
  function Masked(ns: seq<nat>): seq<nat>
    requires |ns| == 31 && AllNibbles(ns)
  {
    TemplateSlots();
    Canonical(Template, ns)
  }

  /**
   Two nibble sequences give the same key exactly when they agree in every `x`
   slot and in the two low bits of the `y` slot.
   */
  lemma KeyOfInjective(a: seq<nat>, b: seq<nat>)
    requires |a| == 31 && AllNibbles(a)
    requires |b| == 31 && AllNibbles(b)
    ensures KeyOf(a) == KeyOf(b) <==> Masked(a) == Masked(b)
  {
    TemplateSlots();
    assert KeyOf(a) == Fill(Template, a);
    assert KeyOf(b) == Fill(Template, b);
    FillInjective(Template, a, b);
  }

  /** The nibbles the 31 draws become. */
  function NibblesOf(draws: seq<real>): (ns: seq<nat>)
    requires |draws| == 31 && forall i :: 0 <= i < 31 ==> IsDraw(draws[i])
    ensures |ns| == 31 && AllNibbles(ns)
  {
    seq(31, i requires 0 <= i < 31 => Nibble(draws[i]))
  }

  /** `uuidv4()` with its 31 draws made explicit. */
  function Uuidv4(draws: seq<real>): (key: string)
    requires |draws| == 31 && forall i :: 0 <= i < 31 ==> IsDraw(draws[i])
    ensures IsV4Key(key)
  {
    KeyOf(NibblesOf(draws))
  }
}
