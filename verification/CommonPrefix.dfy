/** The common prefix of a list of addresses, from the XOR of its extremes
    (frontend/common-prefix.js:109-183). */
module CommonPrefix {
  import opened Text
  import Addresses

  const MAX_ADDRESSES := 64

  // ----- Bits of unbounded integers -----

  function Xor(a: nat, b: nat): nat {
    if a == 0 && b == 0 then 0 else 2 * Xor(a / 2, b / 2) + (if a % 2 != b % 2 then 1 else 0)
  }

  function Or(a: nat, b: nat): nat {
    if a == 0 && b == 0 then 0 else 2 * Or(a / 2, b / 2) + (if a % 2 == 1 || b % 2 == 1 then 1 else 0)
  }

  /** a & ~b. */
  function AndNot(a: nat, b: nat): nat {
    if a == 0 then 0 else 2 * AndNot(a / 2, b / 2) + (if a % 2 == 1 && b % 2 == 0 then 1 else 0)
  }

  function BitLength(a: nat): nat { if a == 0 then 0 else 1 + BitLength(a / 2) }

  function Power2(n: nat): (r: nat)
    ensures r > 0
  {
    if n == 0 then 1 else 2 * Power2(n - 1)
  }

  /** `value` without its lowest `count` bits. */
  function Drop(value: nat, count: nat): nat { if count == 0 then value else Drop(value / 2, count - 1) }

  lemma {:induction false} DropMonotone(a: nat, b: nat, count: nat)
    requires a <= b
    ensures Drop(a, count) <= Drop(b, count)
  {
    if count > 0 {
      DropMonotone(a / 2, b / 2, count - 1);
    }
  }

  lemma {:induction false} DropDrop(a: nat, m: nat, n: nat)
    ensures Drop(Drop(a, m), n) == Drop(a, m + n)
  {
    if m > 0 {
      DropDrop(a / 2, m - 1, n);
    }
  }

  /** Dropping bits names the aligned block that holds a value. */
  lemma {:induction false} DropIsBlock(value: nat, count: nat, q: nat)
    ensures Drop(value, count) == q <==> q * Power2(count) <= value < q * Power2(count) + Power2(count)
  {
    if count > 0 {
      DropIsBlock(value / 2, count - 1, q);
      var p := Power2(count - 1);
      assert q * Power2(count) == 2 * (q * p);
    } else {
      assert q * Power2(0) == q;
    }
  }

  /** Two values agree above their lowest `count` bits exactly when their difference fits in them. */
  lemma {:induction false} XorLength(a: nat, b: nat, count: nat)
    ensures Drop(a, count) == Drop(b, count) <==> BitLength(Xor(a, b)) <= count
  {
    if count == 0 {
      XorZero(a, b);
    } else {
      XorLength(a / 2, b / 2, count - 1);
      if a != 0 || b != 0 {
        assert Xor(a, b) / 2 == Xor(a / 2, b / 2);
      }
    }
  }

  lemma {:induction false} XorZero(a: nat, b: nat)
    ensures Xor(a, b) == 0 <==> a == b
    decreases a + b
  {
    if a != 0 || b != 0 {
      XorZero(a / 2, b / 2);
    }
  }

  /** Clearing and setting the free bits give the ends of the block. */
  lemma {:induction false} MaskEnds(value: nat, free: nat)
    ensures AndNot(value, Power2(free) - 1) == Drop(value, free) * Power2(free)
    ensures Or(value, Power2(free) - 1) == Drop(value, free) * Power2(free) + (Power2(free) - 1)
  {
    if free == 0 {
      MaskNothing(value);
    } else {
      MaskEnds(value / 2, free - 1);
      var p := Power2(free - 1);
      var mask := Power2(free) - 1;
      assert mask / 2 == p - 1 && mask % 2 == 1;
      assert Drop(value, free) * Power2(free) == 2 * (Drop(value, free) * p);
      MaskZero(free);
    }
  }

  lemma {:induction false} MaskNothing(value: nat)
    ensures AndNot(value, 0) == value && Or(value, 0) == value
  {
    if value > 0 {
      MaskNothing(value / 2);
    }
  }

  lemma {:induction false} MaskZero(count: nat)
    ensures Drop(0, count) == 0
  {
    if count > 0 {
      MaskZero(count - 1);
    }
  }

  lemma BelowWidth(value: nat, width: nat)
    requires value < Power2(width)
    ensures Drop(value, width) == 0
  {
    DropIsBlock(value, width, 0);
  }

  // ----- The group's shared prefix -----

  /** Every member has the same leading `shared` bits. */
  ghost predicate Share(members: seq<nat>, width: nat, shared: nat)
    requires shared <= width
  {
    forall i, j :: 0 <= i < |members| && 0 <= j < |members| ==> Drop(members[i], width - shared) == Drop(members[j], width - shared)
  }

  ghost predicate Holds(first: nat, size: nat, members: seq<nat>) {
    forall i :: 0 <= i < |members| ==> first <= members[i] < first + size
  }

  datatype Group = Group(shared: nat, first: nat, last: nat)

  /** `group` is the longest prefix that all members share, and its range. */
  ghost predicate LongestPrefix(group: Group, members: seq<nat>, width: nat) {
    && group.shared <= width && Share(members, width, group.shared)
    && (forall more :: group.shared < more <= width ==> !Share(members, width, more))
  }

  ghost predicate Aligned(first: nat, exponent: nat) { first == Drop(first, exponent) * Power2(exponent) }

  /** The range is the aligned block of its own size, and lies inside every aligned power-of-two
      block that holds all members. */
  ghost predicate SmallestBlock(group: Group, members: seq<nat>, width: nat)
    requires group.shared <= width
  {
    && Aligned(group.first, width - group.shared)
    && group.last + 1 == group.first + Power2(width - group.shared)
    && Holds(group.first, Power2(width - group.shared), members)
    && forall first: nat, exponent: nat :: Aligned(first, exponent) && Holds(first, Power2(exponent), members) ==>
         exponent >= width - group.shared && first <= group.first && group.last < first + Power2(exponent)
  }

  ghost predicate Extremes(members: seq<nat>, min: nat, max: nat) {
    min in members && max in members && forall i :: 0 <= i < |members| ==> min <= members[i] <= max
  }

  function GroupOf(min: nat, max: nat, width: nat): Group
    requires BitLength(Xor(min, max)) <= width
  {
    var free := BitLength(Xor(min, max));
    Group(width - free, AndNot(min, Power2(free) - 1), Or(min, Power2(free) - 1))
  }

  lemma MembersAgree(members: seq<nat>, min: nat, max: nat, count: nat)
    requires Extremes(members, min, max) && Drop(min, count) == Drop(max, count)
    ensures forall i :: 0 <= i < |members| ==> Drop(members[i], count) == Drop(min, count)
  {
    forall i | 0 <= i < |members| ensures Drop(members[i], count) == Drop(min, count) {
      DropMonotone(min, members[i], count);
      DropMonotone(members[i], max, count);
    }
  }

  lemma WithinWidth(min: nat, max: nat, width: nat)
    requires min < Power2(width) && max < Power2(width)
    ensures BitLength(Xor(min, max)) <= width
  {
    BelowWidth(min, width);
    BelowWidth(max, width);
    XorLength(min, max, width);
  }

  /** The XOR of the extremes gives the longest prefix of all members. */
  lemma ExtremesGivePrefix(members: seq<nat>, min: nat, max: nat, width: nat)
    requires Extremes(members, min, max) && BitLength(Xor(min, max)) <= width
    ensures LongestPrefix(GroupOf(min, max, width), members, width)
  {
    var free := BitLength(Xor(min, max));
    XorLength(min, max, free);
    MembersAgree(members, min, max, free);
    forall more | width - free < more <= width ensures !Share(members, width, more) {
      XorLength(min, max, width - more);
      var i, j :| 0 <= i < |members| && 0 <= j < |members| && members[i] == min && members[j] == max;
    }
  }

  lemma BlockEnds(b: nat, count: nat)
    ensures Drop(b * Power2(count), count) == b && Drop(b * Power2(count) + (Power2(count) - 1), count) == b
  {
    DropIsBlock(b * Power2(count), count, b);
    DropIsBlock(b * Power2(count) + (Power2(count) - 1), count, b);
  }

  lemma InBlock(value: nat, count: nat, q: nat)
    requires Drop(value, count) == q
    ensures q * Power2(count) <= value < q * Power2(count) + Power2(count)
  {
    DropIsBlock(value, count, q);
  }

  lemma SameBlock(a: nat, b: nat, free: nat, exponent: nat)
    requires free <= exponent && Drop(a, free) == Drop(b, free)
    ensures Drop(a, exponent) == Drop(b, exponent)
  {
    DropDrop(a, free, exponent - free);
    DropDrop(b, free, exponent - free);
  }

  /** A larger block that holds a value holds the whole smaller block around it. */
  lemma BlockInside(value: nat, first: nat, last: nat, free: nat, exponent: nat)
    requires free <= exponent && Drop(value, free) == Drop(first, free) == Drop(last, free)
    ensures Drop(value, exponent) * Power2(exponent) <= first
    ensures last < Drop(value, exponent) * Power2(exponent) + Power2(exponent)
  {
    SameBlock(value, first, free, exponent);
    SameBlock(value, last, free, exponent);
    InBlock(first, exponent, Drop(value, exponent));
    InBlock(last, exponent, Drop(value, exponent));
  }

  /** The range of the prefix is the smallest aligned block around the members. */
  lemma ExtremesGiveBlock(members: seq<nat>, min: nat, max: nat, width: nat)
    requires Extremes(members, min, max) && BitLength(Xor(min, max)) <= width
    ensures SmallestBlock(GroupOf(min, max, width), members, width)
  {
    var free := BitLength(Xor(min, max));
    var group := GroupOf(min, max, width);
    XorLength(min, max, free);
    MembersAgree(members, min, max, free);
    MaskEnds(min, free);
    BlockEnds(Drop(min, free), free);
    forall i | 0 <= i < |members| ensures group.first <= members[i] < group.first + Power2(free) {
      DropIsBlock(members[i], free, Drop(min, free));
    }
    forall first: nat, exponent: nat | Aligned(first, exponent) && Holds(first, Power2(exponent), members)
      ensures exponent >= free && first <= group.first && group.last < first + Power2(exponent)
    {
      var i, j :| 0 <= i < |members| && 0 <= j < |members| && members[i] == min && members[j] == max;
      DropIsBlock(min, exponent, Drop(first, exponent));
      DropIsBlock(max, exponent, Drop(first, exponent));
      XorLength(min, max, exponent);
      BlockInside(min, group.first, group.last, free, exponent);
    }
  }

  method ComputeGroup(members: seq<nat>, width: nat) returns (group: Group)
    requires members != [] && forall i :: 0 <= i < |members| ==> members[i] < Power2(width)
    ensures LongestPrefix(group, members, width)
    ensures SmallestBlock(group, members, width)
    ensures group.shared == width <==> forall i :: 0 <= i < |members| ==> members[i] == members[0]
  {
    var min, max := members[0], members[0];
    var k := 1;
    while k < |members|
      invariant 1 <= k <= |members| && Extremes(members[..k], min, max)
    {
      if members[k] < min {
        min := members[k];
      }
      if members[k] > max {
        max := members[k];
      }
      k := k + 1;
    }
    assert members[..k] == members;
    WithinWidth(min, max, width);
    XorZero(min, max);
    var shared := width;
    if min != max {
      var bitLen := 0;
      var cursor := Xor(min, max);
      while cursor != 0
        invariant bitLen + BitLength(cursor) == BitLength(Xor(min, max))
        decreases cursor
      {
        cursor := cursor / 2;
        bitLen := bitLen + 1;
      }
      shared := width - bitLen;
    }
    var freeBits := width - shared;
    var lowMask := if freeBits > 0 then Power2(freeBits) - 1 else 0;
    group := Group(shared, AndNot(min, lowMask), Or(min, lowMask));
    assert group == GroupOf(min, max, width);
    ExtremesGivePrefix(members, min, max, width);
    ExtremesGiveBlock(members, min, max, width);
    if shared == width {
      assert BitLength(Xor(min, max)) == 0;
    }
  }

  // ----- The list of texts -----

  datatype Family = Absent | Alone(value: nat) | Compared(count: nat, group: Group)

  datatype Report = Report(total: nat, analyzed: nat, truncated: bool, parsed: nat, skipped: seq<string>, v4: Family, v6: Family)

  /** The values of one family, in input order. */
  function Values(texts: seq<string>, v6: bool): (r: seq<nat>) {
    if texts == [] then []
    else
      var front := Values(texts[..|texts| - 1], v6);
      var a := Addresses.ParseAddressBits(texts[|texts| - 1]);
      if a.Some? && a.value.V6? == v6 then front + [a.value.value] else front
  }

  /** The texts that are neither blank nor an address. */
  function Skipped(texts: seq<string>): (r: seq<string>) {
    if texts == [] then []
    else
      var last := texts[|texts| - 1];
      var front := Skipped(texts[..|texts| - 1]);
      if last != "" && Addresses.ParseAddressBits(last).None? then front + [last] else front
  }

  function Blanks(texts: seq<string>): nat {
    if texts == [] then 0 else Blanks(texts[..|texts| - 1]) + if texts[|texts| - 1] == "" then 1 else 0
  }

  ghost predicate Fits(values: seq<nat>, width: nat) { forall i :: 0 <= i < |values| ==> values[i] < Power2(width) }

  lemma PowerStep(n: nat)
    ensures Power2(n + 8) == 256 * Power2(n)
  {
    assert Power2(n + 4) == 2 * Power2(n + 3) && Power2(n + 2) == 2 * Power2(n + 1);
    assert Power2(n + 8) == 2 * Power2(n + 7) && Power2(n + 6) == 2 * Power2(n + 5);
  }

  lemma {:induction false} LimitIsPower(n: nat, wide: bool)
    ensures Addresses.Limit(n, wide) == Power2(if wide then 16 * n else 8 * n)
  {
    if n > 0 {
      LimitIsPower(n - 1, wide);
      if wide {
        PowerStep(16 * n - 16);
        PowerStep(16 * n - 8);
      } else {
        PowerStep(8 * n - 8);
      }
    }
  }

  lemma {:induction false} ValuesFit(texts: seq<string>)
    ensures Fits(Values(texts, false), 32) && Fits(Values(texts, true), 128)
  {
    if texts != [] {
      ValuesFit(texts[..|texts| - 1]);
      if Addresses.ParseAddressBits(texts[|texts| - 1]).Some? {
        AddressFits(texts[|texts| - 1]);
      }
    }
  }

  lemma FourBytes(high: nat, low: nat)
    requires high < 65536 && low < 65536
    ensures high * 65536 + low < Power2(32)
  {
    LimitIsPower(2, true);
  }

  lemma AddressFits(text: string)
    requires Addresses.ParseAddressBits(text).Some?
    ensures Addresses.ParseAddressBits(text).value.value < Power2(if Addresses.ParseAddressBits(text).value.V6? then 128 else 32)
  {
    LimitIsPower(4, false);
    LimitIsPower(8, true);
    if Addresses.V4Bytes(text).Some? {
      Addresses.DigitsOfNumber(Addresses.V4Bytes(text).value, false);
    } else {
      var words := Addresses.ZonedWords(text).value;
      Addresses.DigitsOfNumber(words, true);
      FourBytes(words[6], words[7]);
    }
  }

  ghost predicate Reports(family: Family, values: seq<nat>, width: nat) {
    match family
    case Absent => values == []
    case Alone(v) => values == [v]
    case Compared(count, group) =>
      count == |values| >= 2 && LongestPrefix(group, values, width) && SmallestBlock(group, values, width)
  }

  method ReportFamily(values: seq<nat>, width: nat) returns (family: Family)
    requires Fits(values, width)
    ensures Reports(family, values, width)
  {
    if |values| == 0 {
      return Absent;
    }
    if |values| < 2 {
      return Alone(values[0]);
    }
    var group := ComputeGroup(values, width);
    return Compared(|values|, group);
  }

  /** Each of the first 64 texts is a blank, a skipped text or a member of its own family's group. */
  method Compare(rawList: seq<string>) returns (r: Report)
    ensures r.total == |rawList| && r.truncated == (|rawList| > MAX_ADDRESSES)
    ensures r.analyzed == if |rawList| > MAX_ADDRESSES then MAX_ADDRESSES else |rawList|
    ensures r.skipped == Skipped(rawList[..r.analyzed])
    ensures r.parsed + |r.skipped| + Blanks(rawList[..r.analyzed]) == r.analyzed
    ensures Reports(r.v4, Values(rawList[..r.analyzed], false), 32)
    ensures Reports(r.v6, Values(rawList[..r.analyzed], true), 128)
  {
    var truncated := |rawList| > MAX_ADDRESSES;
    var working := if truncated then rawList[..MAX_ADDRESSES] else rawList;
    var v4: seq<nat> := [];
    var v6: seq<nat> := [];
    var skipped: seq<string> := [];
    var i := 0;
    while i < |working|
      invariant i <= |working|
      invariant v4 == Values(working[..i], false) && v6 == Values(working[..i], true) && skipped == Skipped(working[..i])
      invariant |v4| + |v6| + |skipped| + Blanks(working[..i]) == i
    {
      assert working[..i + 1][..i] == working[..i];
      var text := working[i];
      if text != "" {
        var bits := Addresses.ParseAddressBits(text);
        match bits
        case None => skipped := skipped + [text];
        case Some(V4(value)) => v4 := v4 + [value];
        case Some(V6(value)) => v6 := v6 + [value];
      }
      i := i + 1;
    }
    assert working[..i] == working == rawList[..|working|];
    ValuesFit(working);
    var group4 := ReportFamily(v4, 32);
    var group6 := ReportFamily(v6, 128);
    return Report(|rawList|, if truncated then MAX_ADDRESSES else |rawList|, truncated, |v4| + |v6|, skipped, group4, group6);
  }
}
