/**
 `src/conf.rs`: the addresses of the firmware, parsed from text when it is compiled. `None` stands for
 the compile-time panic. `FromStrRadix` is Rust's, for an unsigned type whose largest value is `max`.
 */
module Conf {
  import opened Prelude

  const U8_MAX: nat := 255
  const U16_MAX: nat := 65535

  function DigitOf(c: char): Option<nat> {
    if '0' <= c <= '9' then Some(c as nat - '0' as nat)
    else if 'a' <= c <= 'z' then Some(c as nat - 'a' as nat + 10)
    else if 'A' <= c <= 'Z' then Some(c as nat - 'A' as nat + 10)
    else None
  }

  predicate IsDigit(c: char, radix: nat) { DigitOf(c).Some? && DigitOf(c).value < radix }

  // Digit by digit, giving up as soon as the value no longer fits.
  function Accumulate(acc: nat, s: string, radix: nat, max: nat): Option<nat>
    decreases |s|
  {
    if s == [] then Some(acc)
    else if !IsDigit(s[0], radix) then None
    else
      var next := acc * radix + DigitOf(s[0]).value;
      if next > max then None else Accumulate(next, s[1..], radix, max)
  }

  function Unsigned(s: string): string { if |s| > 1 && s[0] == '+' then s[1..] else s }

  function FromStrRadix(s: string, radix: nat, max: nat): Option<nat> {
    if s == [] then None else Accumulate(0, Unsigned(s), radix, max)
  }

  function ParseU8(s: string, radix: nat): Option<nat> { FromStrRadix(s, radix, U8_MAX) }

  function Split(s: string, sep: char): (parts: seq<string>)
    ensures parts != []
  {
    if s == [] then [[]]
    else
      var rest := Split(s[1..], sep);
      if s[0] == sep then [[]] + rest else [[s[0]] + rest[0]] + rest[1..]
  }

  function SplitOnce(s: string, sep: char): Option<(string, string)> {
    if s == [] then None
    else if s[0] == sep then Some(([], s[1..]))
    else
      var rest := SplitOnce(s[1..], sep);
      if rest.None? then None else Some(([s[0]] + rest.value.0, rest.value.1))
  }

  function ParseEach(parts: seq<string>, radix: nat, max: nat): Option<seq<nat>> {
    if parts == [] then Some([])
    else
      var first := FromStrRadix(parts[0], radix, max);
      var rest := ParseEach(parts[1..], radix, max);
      if first.None? || rest.None? then None else Some([first.value] + rest.value)
  }

  // `let [a, b, ..] = collect_const!(..)`: the number of parts must be exactly `count`.
  function ParseGroups(s: string, sep: char, radix: nat, max: nat, count: nat): Option<seq<nat>> {
    var parts := Split(s, sep);
    if |parts| != count then None else ParseEach(parts, radix, max)
  }

  function ParseIpv4(s: string): Option<seq<nat>> { ParseGroups(s, '.', 10, U8_MAX, 4) }

  function ParseIpv6(s: string): Option<seq<nat>> { ParseGroups(s, ':', 16, U16_MAX, 8) }

  function ParseMac(s: string): Option<seq<nat>> { ParseGroups(s, ':', 16, U8_MAX, 6) }

  function SplitIp(s: string): Option<(string, nat)> {
    var halves := SplitOnce(s, '/');
    if halves.None? then None
    else
      var mask := ParseU8(halves.value.1, 10);
      if mask.None? then None else Some((halves.value.0, mask.value))
  }

  // ---- What a numeral means -----------------------------------------------------------------

  predicate AllDigits(s: string, radix: nat) { forall i :: 0 <= i < |s| ==> IsDigit(s[i], radix) }

  predicate IsNumeral(s: string, radix: nat) { s != [] && AllDigits(s, radix) }

  /** Positional notation, least significant digit last. */
  function Value(s: string, radix: nat): nat {
    if s == [] then 0
    else
      var digit := DigitOf(s[|s| - 1]);
      Value(s[..|s| - 1], radix) * radix + if digit.Some? then digit.value else 0
  }

  /** Parsing accepts a text exactly when it is a numeral of the radix whose value fits, and yields that value. */
  lemma ParseAcceptsWhatFits(s: string, radix: nat, max: nat, v: nat)
    requires 2 <= radix <= 36
    ensures FromStrRadix(s, radix, max) == Some(v) <==>
            IsNumeral(Unsigned(s), radix) && Value(Unsigned(s), radix) == v <= max
  {
    var digits := Unsigned(s);
    if s != [] {
      AccumulateIsValue([], digits, radix, max);
      assert [] + digits == digits;
    }
  }

  const LOWER: string := "0123456789abcdefghijklmnopqrstuvwxyz"
  const UPPER: string := "0123456789ABCDEFGHIJKLMNOPQRSTUVWXYZ"

  /** The digits are these, in either case, and count from 0. */
  lemma DigitsAreThese(c: char, d: nat)
    ensures DigitOf(c) == Some(d) <==> d < 36 && (c == LOWER[d] || c == UPPER[d])
  {
    assert forall i :: 0 <= i < 10 ==> LOWER[i] as nat == '0' as nat + i;
    assert forall i :: 10 <= i < 36 ==> LOWER[i] as nat == 'a' as nat + (i - 10);
    assert forall i :: 10 <= i < 36 ==> UPPER[i] as nat == 'A' as nat + (i - 10);
  }

  /** What is accepted, spelled out: digits of the radix, at least one, with or without a plus sign before them. */
  lemma SignsAreExact(s: string, radix: nat, max: nat, v: nat)
    requires 2 <= radix <= 36
    ensures FromStrRadix(s, radix, max) == Some(v) <==>
            exists digits :: (s == digits || s == ['+'] + digits)
                          && digits != [] && AllDigits(digits, radix) && Value(digits, radix) == v <= max
  {
    ParseAcceptsWhatFits(s, radix, max, v);
    if FromStrRadix(s, radix, max) == Some(v) {
      assert s == Unsigned(s) || s == ['+'] + Unsigned(s);
    }
    if exists digits :: (s == digits || s == ['+'] + digits)
                     && digits != [] && AllDigits(digits, radix) && Value(digits, radix) == v <= max {
      var digits :| (s == digits || s == ['+'] + digits)
                 && digits != [] && AllDigits(digits, radix) && Value(digits, radix) == v <= max;
      assert IsDigit(digits[0], radix);
      assert Unsigned(s) == digits;
    }
  }

  lemma ValueOfOneMore(read: string, c: char, radix: nat)
    requires IsDigit(c, radix)
    ensures Value(read + [c], radix) == Value(read, radix) * radix + DigitOf(c).value
  {
  }

  lemma AllDigitsFromFirst(s: string, radix: nat)
    requires s != []
    ensures AllDigits(s, radix) <==> IsDigit(s[0], radix) && AllDigits(s[1..], radix)
  {
  }

  lemma AccumulateOnce(read: string, s: string, radix: nat, max: nat)
    requires s != [] && IsDigit(s[0], radix)
    ensures var more := Value(read + [s[0]], radix);
            Accumulate(Value(read, radix), s, radix, max) ==
            if more > max then None else Accumulate(more, s[1..], radix, max)
  {
    ValueOfOneMore(read, s[0], radix);
  }

  // What is accumulated is the value of the digits read so far; giving up early loses nothing,
  // because the value only grows.
  lemma {:induction false} AccumulateIsValue(read: string, s: string, radix: nat, max: nat)
    requires radix >= 2 && Value(read, radix) <= max
    ensures Accumulate(Value(read, radix), s, radix, max)
         == if AllDigits(s, radix) && Value(read + s, radix) <= max then Some(Value(read + s, radix)) else None
    decreases |s|
  {
    if s == [] {
      assert read + s == read;
    } else {
      AllDigitsFromFirst(s, radix);
      if IsDigit(s[0], radix) {
        var more := read + [s[0]];
        AccumulateOnce(read, s, radix, max);
        assert more + s[1..] == read + s;
        if Value(more, radix) <= max {
          AccumulateIsValue(more, s[1..], radix, max);
        } else {
          ValueGrows(more, s[1..], radix);
        }
      }
    }
  }

  lemma {:induction false} ValueGrows(read: string, s: string, radix: nat)
    requires radix >= 1
    ensures Value(read + s, radix) >= Value(read, radix)
    decreases |s|
  {
    if s == [] {
      assert read + s == read;
    } else {
      var all := read + s;
      assert all[..|all| - 1] == read + s[..|s| - 1];
      ValueGrows(read, s[..|s| - 1], radix);
      TimesAtLeast(Value(all[..|all| - 1], radix), radix);
    }
  }

  lemma TimesAtLeast(x: nat, radix: nat)
    requires radix >= 1
    ensures x * radix >= x
  {
  }

  // ---- What an address means ----------------------------------------------------------------

  function JoinText(parts: seq<string>, sep: char): string {
    if parts == [] then []
    else if |parts| == 1 then parts[0]
    else parts[0] + [sep] + JoinText(parts[1..], sep)
  }

  predicate Lacks(s: string, sep: char) { forall i :: 0 <= i < |s| ==> s[i] != sep }

  lemma {:induction false} SplitAtFirst(head: string, tail: string, sep: char)
    requires Lacks(head, sep)
    ensures Split(head, sep) == [head]
    ensures Split(head + [sep] + tail, sep) == [head] + Split(tail, sep)
    ensures SplitOnce(head + [sep] + tail, sep) == Some((head, tail))
    decreases |head|
  {
    var all := head + [sep] + tail;
    if head == [] {
      assert all[1..] == tail;
    } else {
      assert all[1..] == head[1..] + [sep] + tail && all[0] == head[0];
      SplitAtFirst(head[1..], tail, sep);
      assert [head[0]] + head[1..] == head;
      assert ([head[1..]] + Split(tail, sep))[1..] == Split(tail, sep);
    }
  }

  lemma {:induction false} JoinOfSplit(s: string, sep: char)
    ensures JoinText(Split(s, sep), sep) == s
  {
    if s != [] {
      var rest := Split(s[1..], sep);
      JoinOfSplit(s[1..], sep);
      if s[0] == sep {
        assert ([[]] + rest)[1..] == rest;
      } else {
        assert ([[s[0]] + rest[0]] + rest[1..])[1..] == rest[1..];
      }
    }
  }

  lemma {:induction false} SplitOfJoin(parts: seq<string>, sep: char)
    requires parts != [] && forall i :: 0 <= i < |parts| ==> Lacks(parts[i], sep)
    ensures Split(JoinText(parts, sep), sep) == parts
  {
    if |parts| == 1 {
      SplitAtFirst(parts[0], [], sep);
    } else {
      SplitOfJoin(parts[1..], sep);
      SplitAtFirst(parts[0], JoinText(parts[1..], sep), sep);
    }
  }

  /** Each part is a numeral of the radix, a sign allowed, and stands for its value. */
  predicate Denote(parts: seq<string>, vs: seq<nat>, radix: nat, max: nat) {
    && |parts| == |vs|
    && forall i :: 0 <= i < |parts| ==>
         IsNumeral(Unsigned(parts[i]), radix) && Value(Unsigned(parts[i]), radix) == vs[i] <= max
  }

  lemma {:induction false} ParseEachIsExact(parts: seq<string>, vs: seq<nat>, radix: nat, max: nat)
    requires 2 <= radix <= 36
    ensures ParseEach(parts, radix, max) == Some(vs) <==> Denote(parts, vs, radix, max)
  {
    if parts != [] && vs != [] {
      ParseAcceptsWhatFits(parts[0], radix, max, vs[0]);
      ParseEachIsExact(parts[1..], vs[1..], radix, max);
      assert [vs[0]] + vs[1..] == vs;
      assert Denote(parts, vs, radix, max) <==>
             IsNumeral(Unsigned(parts[0]), radix) && Value(Unsigned(parts[0]), radix) == vs[0] <= max
             && Denote(parts[1..], vs[1..], radix, max) by { DenoteFromFirst(parts, vs, radix, max); }
    }
  }

  lemma DenoteFromFirst(parts: seq<string>, vs: seq<nat>, radix: nat, max: nat)
    requires parts != [] && vs != []
    ensures Denote(parts, vs, radix, max) <==>
            IsNumeral(Unsigned(parts[0]), radix) && Value(Unsigned(parts[0]), radix) == vs[0] <= max
            && Denote(parts[1..], vs[1..], radix, max)
  {
  }

  lemma NumeralLacks(s: string, radix: nat, sep: char)
    requires IsNumeral(Unsigned(s), radix) && DigitOf(sep).None? && sep != '+'
    ensures Lacks(s, sep)
  {
    assert s == Unsigned(s) || s == ['+'] + Unsigned(s);
    assert forall i :: 0 <= i < |Unsigned(s)| ==> IsDigit(Unsigned(s)[i], radix);
  }

  /**
   An address is accepted exactly when it is as many numerals as it should have, each fitting, joined
   by the separator; and it parses to their values.
   */
  lemma AddressesAreExact(s: string, vs: seq<nat>, sep: char, radix: nat, max: nat, count: nat)
    requires 2 <= radix <= 36 && DigitOf(sep).None? && sep != '+' && count > 0
    ensures ParseGroups(s, sep, radix, max, count) == Some(vs) <==>
            |vs| == count && exists parts :: Denote(parts, vs, radix, max) && JoinText(parts, sep) == s
  {
    var parts := Split(s, sep);
    JoinOfSplit(s, sep);
    ParseEachIsExact(parts, vs, radix, max);
    if |vs| == count && exists ps :: Denote(ps, vs, radix, max) && JoinText(ps, sep) == s {
      var ps :| Denote(ps, vs, radix, max) && JoinText(ps, sep) == s;
      forall i | 0 <= i < |ps| ensures Lacks(ps[i], sep) {
        NumeralLacks(ps[i], radix, sep);
      }
      SplitOfJoin(ps, sep);
    }
  }

  /** The three kinds of address: how many numerals, of which radix, up to which value, with which separator. */
  lemma AddressKinds(s: string, vs: seq<nat>)
    ensures ParseIpv4(s) == Some(vs) <==>
            |vs| == 4 && exists parts :: Denote(parts, vs, 10, 255) && JoinText(parts, '.') == s
    ensures ParseIpv6(s) == Some(vs) <==>
            |vs| == 8 && exists parts :: Denote(parts, vs, 16, 65535) && JoinText(parts, ':') == s
    ensures ParseMac(s) == Some(vs) <==>
            |vs| == 6 && exists parts :: Denote(parts, vs, 16, 255) && JoinText(parts, ':') == s
  {
    AddressesAreExact(s, vs, '.', 10, 255, 4);
    AddressesAreExact(s, vs, ':', 16, 65535, 8);
    AddressesAreExact(s, vs, ':', 16, 255, 6);
  }

  lemma {:induction false} SplitOnceMeans(s: string, sep: char, head: string, tail: string)
    requires SplitOnce(s, sep) == Some((head, tail))
    ensures Lacks(head, sep) && s == head + [sep] + tail
    decreases |s|
  {
    assert s == [s[0]] + s[1..];
    if s[0] != sep {
      assert head == [s[0]] + head[1..];
      SplitOnceMeans(s[1..], sep, head[1..], tail);
    }
  }

  lemma OneMask(m: string, mask: nat)
    ensures FromStrRadix(m, 10, U8_MAX) == Some(mask) <==> Denote([m], [mask], 10, U8_MAX)
  {
    ParseAcceptsWhatFits(m, 10, U8_MAX, mask);
    DenoteFromFirst([m], [mask], 10, U8_MAX);
  }

  /** An address with a mask is accepted exactly when a fitting decimal follows its first `/`. */
  lemma MasksAreExact(s: string, ip: string, mask: nat)
    ensures SplitIp(s) == Some((ip, mask)) <==>
            exists m :: Lacks(ip, '/') && s == ip + ['/'] + m && Denote([m], [mask], 10, U8_MAX)
  {
    if SplitIp(s) == Some((ip, mask)) {
      var m := SplitOnce(s, '/').value.1;
      SplitOnceMeans(s, '/', ip, m);
      OneMask(m, mask);
    }
    if exists m :: Lacks(ip, '/') && s == ip + ['/'] + m && Denote([m], [mask], 10, U8_MAX) {
      var m :| Lacks(ip, '/') && s == ip + ['/'] + m && Denote([m], [mask], 10, U8_MAX);
      SplitAtFirst(ip, m, '/');
      OneMask(m, mask);
    }
  }

  // ---- Writing addresses --------------------------------------------------------------------

  function DigitChar(d: nat): char
    requires d < 36
  {
    if d < 10 then '0' + d as char else 'a' + (d - 10) as char
  }

  /** The usual numeral of a value: lower case, no sign, no leading zeros. */
  function Numeral(v: nat, radix: nat): (s: string)
    requires 2 <= radix <= 36
    ensures s != []
    decreases v
  {
    if v < radix then [DigitChar(v)] else Numeral(v / radix, radix) + [DigitChar(v % radix)]
  }

  function Numerals(vs: seq<nat>, radix: nat): (parts: seq<string>)
    requires 2 <= radix <= 36
    ensures |parts| == |vs| && forall i :: 0 <= i < |vs| ==> parts[i] == Numeral(vs[i], radix)
  {
    if vs == [] then [] else [Numeral(vs[0], radix)] + Numerals(vs[1..], radix)
  }

  /** An address as text. */
  function Join(vs: seq<nat>, sep: char, radix: nat): string
    requires 2 <= radix <= 36
  {
    JoinText(Numerals(vs, radix), sep)
  }

  lemma DigitCharIsDigit(d: nat)
    requires d < 36
    ensures DigitOf(DigitChar(d)) == Some(d)
  {
  }

  lemma DivideAndBack(v: nat, radix: nat)
    requires radix > 0
    ensures v / radix * radix + v % radix == v
  {
  }

  lemma NumeralEndsIn(high: string, low: nat, radix: nat)
    requires low < radix <= 36 && IsNumeral(high, radix)
    ensures IsNumeral(high + [DigitChar(low)], radix)
    ensures Value(high + [DigitChar(low)], radix) == Value(high, radix) * radix + low
  {
  }

  lemma NumeralIsShown(v: nat, high: nat, low: nat, radix: nat)
    requires 2 <= radix <= 36 && low < radix && v >= radix
    requires high == v / radix && low == v % radix
    ensures high < v && v == high * radix + low
    ensures Numeral(v, radix) == Numeral(high, radix) + [DigitChar(low)]
  {
    DivideAndBack(v, radix);
  }

  lemma {:induction false} NumeralMeansValue(v: nat, radix: nat)
    requires 2 <= radix <= 36
    ensures IsNumeral(Numeral(v, radix), radix) && Value(Numeral(v, radix), radix) == v
    decreases v
  {
    if v < radix {
      DigitCharIsDigit(v);
      assert Numeral(v, radix)[..0] == [];
    } else {
      var high, low := v / radix, v % radix;
      NumeralIsShown(v, high, low, radix);
      NumeralMeansValue(high, radix);
      NumeralEndsIn(Numeral(high, radix), low, radix);
    }
  }

  lemma NumeralHasNoSign(v: nat, radix: nat)
    requires 2 <= radix <= 36
    ensures Unsigned(Numeral(v, radix)) == Numeral(v, radix)
    ensures IsNumeral(Numeral(v, radix), radix) && Value(Numeral(v, radix), radix) == v
  {
    NumeralMeansValue(v, radix);
    assert IsDigit(Numeral(v, radix)[0], radix);
  }

  lemma NumeralParses(v: nat, radix: nat, max: nat)
    requires 2 <= radix <= 36 && v <= max
    ensures FromStrRadix(Numeral(v, radix), radix, max) == Some(v)
  {
    NumeralHasNoSign(v, radix);
    ParseAcceptsWhatFits(Numeral(v, radix), radix, max, v);
  }

  lemma NumeralsDenote(vs: seq<nat>, radix: nat, max: nat)
    requires 2 <= radix <= 36 && forall v :: v in vs ==> v <= max
    ensures Denote(Numerals(vs, radix), vs, radix, max)
  {
    forall i | 0 <= i < |vs| ensures IsNumeral(Unsigned(Numeral(vs[i], radix)), radix)
                                  && Value(Unsigned(Numeral(vs[i], radix)), radix) == vs[i] <= max
    {
      assert vs[i] in vs;
      NumeralHasNoSign(vs[i], radix);
    }
  }

  lemma GroupsParse(vs: seq<nat>, sep: char, radix: nat, max: nat)
    requires vs != [] && 2 <= radix <= 36 && DigitOf(sep).None? && sep != '+'
    requires forall v :: v in vs ==> v <= max
    ensures ParseGroups(Join(vs, sep, radix), sep, radix, max, |vs|) == Some(vs)
  {
    NumeralsDenote(vs, radix, max);
    AddressesAreExact(Join(vs, sep, radix), vs, sep, radix, max, |vs|);
  }

  /**
   Address text round trip: every sequence of octets or groups, written with its separator, parses
   back to itself, and followed by `/` and a mask it splits into the address and the mask.
   */
  lemma AddressesRoundTrip(vs: seq<nat>, mask: nat)
    requires mask <= U8_MAX
    ensures |vs| == 4 && (forall v :: v in vs ==> v <= U8_MAX) ==> ParseIpv4(Join(vs, '.', 10)) == Some(vs)
    ensures |vs| == 6 && (forall v :: v in vs ==> v <= U8_MAX) ==> ParseMac(Join(vs, ':', 16)) == Some(vs)
    ensures |vs| == 8 && (forall v :: v in vs ==> v <= U16_MAX) ==> ParseIpv6(Join(vs, ':', 16)) == Some(vs)
    ensures SplitIp(Join(vs, '.', 10) + ['/'] + Numeral(mask, 10)) == Some((Join(vs, '.', 10), mask))
    ensures SplitIp(Join(vs, ':', 16) + ['/'] + Numeral(mask, 10)) == Some((Join(vs, ':', 16), mask))
  {
    if |vs| == 4 && forall v :: v in vs ==> v <= U8_MAX {
      GroupsParse(vs, '.', 10, U8_MAX);
    }
    if |vs| == 6 && forall v :: v in vs ==> v <= U8_MAX {
      GroupsParse(vs, ':', 16, U8_MAX);
    }
    if |vs| == 8 && forall v :: v in vs ==> v <= U16_MAX {
      GroupsParse(vs, ':', 16, U16_MAX);
    }
    NumeralParses(mask, 10, U8_MAX);
    JoinLacksSlash(vs, '.', 10);
    JoinLacksSlash(vs, ':', 16);
    SplitAtFirst(Join(vs, '.', 10), Numeral(mask, 10), '/');
    SplitAtFirst(Join(vs, ':', 16), Numeral(mask, 10), '/');
  }

  lemma {:induction false} JoinLacks(parts: seq<string>, sep: char, c: char)
    requires sep != c && forall i :: 0 <= i < |parts| ==> Lacks(parts[i], c)
    ensures Lacks(JoinText(parts, sep), c)
  {
    if |parts| > 1 {
      JoinLacks(parts[1..], sep, c);
    }
  }

  lemma JoinLacksSlash(vs: seq<nat>, sep: char, radix: nat)
    requires 2 <= radix <= 36 && sep != '/'
    ensures Lacks(Join(vs, sep, radix), '/')
  {
    forall i | 0 <= i < |vs| ensures Lacks(Numerals(vs, radix)[i], '/') {
      NumeralHasNoSign(vs[i], radix);
      NumeralLacks(Numeral(vs[i], radix), radix, '/');
    }
    JoinLacks(Numerals(vs, radix), sep, '/');
  }
}
