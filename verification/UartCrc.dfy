/** CRC-16/CCITT-FALSE: the byte loop, the bit-serial form, and what it detects. */
module UartCrc {
  import opened Octets
  import opened ShiftRegisters

  // The bits of a byte, most significant first.
  function Bits(b: byte): (bits: seq<bool>)
    ensures |bits| == 8
  {
    [b & 0x80 != 0, b & 0x40 != 0, b & 0x20 != 0, b & 0x10 != 0,
     b & 0x08 != 0, b & 0x04 != 0, b & 0x02 != 0, b & 0x01 != 0]
  }

  function Stream(data: seq<byte>): (bits: seq<bool>)
    ensures |bits| == 8 * |data|
  {
    if data == [] then [] else Bits(data[0]) + Stream(data[1..])
  }

  predicate Top(word: bv16) {
    word & 0x8000 != 0
  }

  // One shift, adding the polynomial or not.
  function Shifted(crc: bv16, fed: bool): bv16 {
    if fed then (crc << 1) ^ 0x1021 else crc << 1
  }

  // The shift register with one message bit fed in at the top.
  function Step(crc: bv16, bit: bool): bv16 {
    Shifted(crc, Top(crc) != bit)
  }

  // The bit-serial definition of the checksum.
  ghost function Crc(data: seq<byte>): bv16 {
    Fold(Step, 0xFFFF, Stream(data))
  }

  // ---- the byte loop computes it ----

  lemma {:induction false} StreamAppend(a: seq<byte>, b: seq<byte>)
    ensures Stream(a + b) == Stream(a) + Stream(b)
    decreases |a|
  {
    if a == [] {
      assert a + b == b;
    } else {
      assert (a + b)[1..] == a[1..] + b;
      StreamAppend(a[1..], b);
      assert Bits(a[0]) + (Stream(a[1..]) + Stream(b)) == (Bits(a[0]) + Stream(a[1..])) + Stream(b);
    }
  }

  function Rest(word: bv16): bv16 {
    word << 1
  }

  function Xor(a: bv16, b: bv16): bv16 {
    a ^ b
  }

  ghost function WordLayout(): Layout<bv16> {
    Layout(Top, Rest, 0, Xor)
  }

  lemma TopOfXor(a: bv16, b: bv16)
    ensures Top(Xor(a, b)) == (Top(a) != Top(b))
  {
  }

  lemma PlainXor(a: bv16, b: bv16)
    ensures (a ^ b) << 1 == (a << 1) ^ (b << 1)
  {
  }

  lemma FedXor(a: bv16, b: bv16)
    ensures ((a ^ b) << 1) ^ 0x1021 == ((a << 1) ^ 0x1021) ^ (b << 1)
  {
  }

  lemma ShiftOfXor(a: bv16, b: bv16, fed: bool)
    ensures Shifted(Xor(a, b), fed) == Xor(Shifted(a, fed), Rest(b))
  {
    if fed {
      FedXor(a, b);
    } else {
      PlainXor(a, b);
    }
  }

  lemma FeedTop(crc: bv16, word: bv16)
    ensures Step(Xor(crc, word), false) == Xor(Step(crc, Top(word)), Rest(word))
  {
    var sum, fed := Xor(crc, word), Top(crc) != Top(word);
    TopOfXor(crc, word);
    assert Step(sum, false) == Shifted(sum, fed);
    ShiftOfXor(crc, word, fed);
  }

  lemma XorZero(crc: bv16)
    ensures Xor(crc, 0) == crc
  {
  }

  lemma WordFeeds()
    ensures Feeds(Step, WordLayout())
  {
    forall crc: bv16 {
      XorZero(crc);
    }
    forall crc: bv16, word: bv16 {
      FeedTop(crc, word);
    }
  }

  lemma ByteOnTop(b: byte, w0: bv16, w1: bv16, w2: bv16, w3: bv16, w4: bv16, w5: bv16, w6: bv16, w7: bv16)
    requires w0 == (b as bv16) << 8 && w1 == Rest(w0) && w2 == Rest(w1) && w3 == Rest(w2)
    requires w4 == Rest(w3) && w5 == Rest(w4) && w6 == Rest(w5) && w7 == Rest(w6)
    ensures Bits(b) == [Top(w0), Top(w1), Top(w2), Top(w3), Top(w4), Top(w5), Top(w6), Top(w7)]
    ensures Rest(w7) == 0
  {
  }

  lemma ByteSpells(b: byte)
    ensures Spells(WordLayout(), (b as bv16) << 8, Bits(b))
  {
    var l, w := WordLayout(), (b as bv16) << 8;
    ByteOnTop(b, w, Rests(l, w, 1), Rests(l, w, 2), Rests(l, w, 3),
              Rests(l, w, 4), Rests(l, w, 5), Rests(l, w, 6), Rests(l, w, 7));
    SpellsFrom(l, w, Bits(b), 0);
  }

  lemma FeedByte(crc: bv16, data: seq<byte>, index: nat)
    requires index < |data|
    ensures Fold(Step, crc, Stream(data[..index + 1]))
         == Shifts(Step, Xor(Fold(Step, crc, Stream(data[..index])), (data[index] as bv16) << 8), 8)
  {
    assert data[..index + 1] == data[..index] + [data[index]];
    assert Stream([data[index]]) == Bits(data[index]);
    StreamAppend(data[..index], [data[index]]);
    FoldAppend(Step, crc, Stream(data[..index]), Bits(data[index]));
    FeedBits(Fold(Step, crc, Stream(data[..index])), data[index]);
  }

  lemma FeedBits(crc: bv16, b: byte)
    ensures Shifts(Step, Xor(crc, (b as bv16) << 8), 8) == Fold(Step, crc, Bits(b))
  {
    ByteSpells(b);
    WordFeeds();
    FeedWord(Step, WordLayout(), crc, (b as bv16) << 8, Bits(b));
  }

  // One pass of the inner loop.
  lemma ShiftOnce(crc: bv16, next: bv16, n: nat)
    requires next == if crc & 0x8000 != 0 then (crc << 1) ^ 0x1021 else crc << 1
    ensures Shifts(Step, crc, n + 1) == Shifts(Step, next, n)
  {
  }

  // The inner loop.
  method ShiftByte(word: bv16) returns (crc: bv16)
    ensures crc == Shifts(Step, word, 8)
  {
    crc := word;
    var bit := 0;
    while bit < 8
      invariant 0 <= bit <= 8
      invariant Shifts(Step, crc, 8 - bit) == Shifts(Step, word, 8)
    {
      ghost var before := crc;
      if crc & 0x8000 != 0 {
        crc := (crc << 1) ^ 0x1021;
      } else {
        crc := crc << 1;
      }
      ShiftOnce(before, crc, 7 - bit);
      bit := bit + 1;
    }
  }

  method Crc16CcittFalse(data: seq<byte>) returns (crc: bv16)
    ensures crc == Crc(data)
  {
    crc := 0xFFFF;
    var index := 0;
    while index < |data|
      invariant 0 <= index <= |data|
      invariant crc == Fold(Step, 0xFFFF, Stream(data[..index]))
    {
      FeedByte(0xFFFF, data, index);
      crc := ShiftByte(crc ^ ((data[index] as bv16) << 8));
      index := index + 1;
    }
    assert data[..index] == data;
  }

  // ---- what it detects ----

  // The low bits of the register that `n` further steps cannot push out.
  function Low(n: nat): bv16 {
    if n == 0 then 0xFFFF else Low(n - 1) >> 1
  }

  lemma LowIsOdd(n: nat)
    requires n < 16
    ensures Low(n) & 1 == 1
  {
    assert Low(1) == 0x7FFF && Low(2) == 0x3FFF && Low(3) == 0x1FFF && Low(4) == 0x0FFF;
    assert Low(5) == 0x07FF && Low(6) == 0x03FF && Low(7) == 0x01FF && Low(8) == 0x00FF;
    assert Low(9) == 0x007F && Low(10) == 0x003F && Low(11) == 0x001F && Low(12) == 0x000F;
    assert Low(13) == 0x0007 && Low(14) == 0x0003 && Low(15) == 0x0001;
  }

  // Two register values that agree on the bits which `n` steps leave inside.
  ghost predicate LowAgree(n: nat, c: bv16, c': bv16) {
    (c ^ c') & Low(n) == 0
  }

  lemma PlainBack(a: bv16, b: bv16, s: bv16, t: bv16, low: bv16)
    requires s == a << 1 && t == b << 1 && (s ^ t) & low == 0
    ensures (a ^ b) & (low >> 1) == 0
  {
  }

  lemma FedBack(a: bv16, b: bv16, s: bv16, t: bv16, low: bv16)
    requires s == (a << 1) ^ 0x1021 && t == (b << 1) ^ 0x1021 && (s ^ t) & low == 0
    ensures (a ^ b) & (low >> 1) == 0
  {
  }

  // Whether the polynomial was added shows in the lowest bit.
  lemma FedShows(s: bv16, t: bv16, a: bv16, b: bv16, low: bv16)
    requires s == (a << 1) ^ 0x1021 && t == b << 1 && low & 1 == 1
    ensures (s ^ t) & low != 0 && (t ^ s) & low != 0
  {
  }

  lemma ShiftBack(a: bv16, b: bv16, fed: bool, fed': bool, s: bv16, t: bv16, low: bv16)
    requires low & 1 == 1 && (s ^ t) & low == 0
    requires s == Shifted(a, fed) && t == Shifted(b, fed')
    ensures (a ^ b) & (low >> 1) == 0 && fed == fed'
  {
    if fed && fed' {
      FedBack(a, b, s, t, low);
    } else if fed {
      FedShows(s, t, a, b, low);
    } else if fed' {
      FedShows(t, s, b, a, low);
    } else {
      PlainBack(a, b, s, t, low);
    }
  }

  lemma StepBack(c: bv16, c': bv16, b: bool, b': bool, low: bv16)
    requires low & 1 == 1
    requires (Step(c, b) ^ Step(c', b')) & low == 0
    ensures (c ^ c') & (low >> 1) == 0
    ensures c == c' ==> b == b'
  {
    ShiftBack(c, c', Top(c) != b, Top(c') != b', Step(c, b), Step(c', b'), low);
  }

  lemma XorSelf(c: bv16, low: bv16)
    ensures (c ^ c) & low == 0
  {
  }

  lemma AgreeAt(n: nat, s: bv16, s': bv16, low: bv16)
    requires low == Low(n)
    ensures LowAgree(n, s, s') == ((s ^ s') & low == 0)
  {
  }

  lemma AgreeNext(n: nat, c: bv16, c': bv16, low: bv16)
    requires low == Low(n) && (c ^ c') & (low >> 1) == 0
    ensures LowAgree(n + 1, c, c')
  {
  }

  lemma AgreeBack(n: nat, c: bv16, c': bv16, b: bool, b': bool)
    requires n < 16 && LowAgree(n, Step(c, b), Step(c', b'))
    ensures LowAgree(n + 1, c, c')
    ensures c == c' ==> b == b'
  {
    LowIsOdd(n);
    AgreeAt(n, Step(c, b), Step(c', b'), Low(n));
    StepBack(c, c', b, b', Low(n));
    AgreeNext(n, c, c', Low(n));
  }

  lemma Agrees(c: bv16)
    ensures LowAgree(0, c, c)
  {
    XorSelf(c, Low(0));
  }

  // Sixteen steps of the register can be traced back.
  lemma StepTraces()
    ensures Traces(Step, LowAgree, 16)
  {
    forall c: bv16 {
      Agrees(c);
    }
    forall n: nat, c: bv16, c': bv16, b, b' | n < 16 && LowAgree(n, Step(c, b), Step(c', b')) {
      AgreeBack(n, c, c', b, b');
    }
  }

  lemma ShiftInjective(c: bv16, c': bv16, fed: bool)
    requires Shifted(c, fed) == Shifted(c', fed) && Top(c) == Top(c')
    ensures c == c'
  {
  }

  lemma StepInjective(c: bv16, c': bv16, bit: bool)
    requires Step(c, bit) == Step(c', bit)
    ensures c == c'
  {
    if Top(c) == Top(c') {
      ShiftInjective(c, c', Top(c) != bit);
    } else {
      XorSelf(Step(c, bit), 1);
      ShiftBack(c, c', Top(c) != bit, Top(c') != bit, Step(c, bit), Step(c', bit), 1);
    }
  }

  lemma StepInvertible()
    ensures Invertible(Step)
  {
    forall c, c', b | Step(c, b) == Step(c', b) ensures c == c' {
      StepInjective(c, c', b);
    }
  }

  // Sixteen steps from one register value map distinct bits to distinct values.
  lemma SixteenStepsInjective(c: bv16, u: seq<bool>, v: seq<bool>)
    requires |u| == |v| <= 16 && u != v
    ensures Fold(Step, c, u) != Fold(Step, c, v)
  {
    StepTraces();
    if Fold(Step, c, u) == Fold(Step, c, v) {
      SameEnd(Step, LowAgree, 16, c, c, u, v);
    }
  }

  lemma SameByte(a: byte, b: byte)
    requires Bits(a) == Bits(b)
    ensures a == b
  {
    var s, t := Bits(a), Bits(b);
    assert s[0] == t[0] && s[1] == t[1] && s[2] == t[2] && s[3] == t[3];
    assert s[4] == t[4] && s[5] == t[5] && s[6] == t[6] && s[7] == t[7];
  }

  lemma {:induction false} StreamInjective(a: seq<byte>, b: seq<byte>)
    requires |a| == |b| && Stream(a) == Stream(b)
    ensures a == b
    decreases |a|
  {
    if a != [] {
      var s, t := Stream(a), Stream(b);
      assert Bits(a[0]) == s[..8] == t[..8] == Bits(b[0]);
      SameByte(a[0], b[0]);
      assert Stream(a[1..]) == s[8..] == t[8..] == Stream(b[1..]);
      StreamInjective(a[1..], b[1..]);
      assert a == [a[0]] + a[1..] && b == [b[0]] + b[1..];
    }
  }

  // Two messages that differ, and only within sixteen consecutive bits.
  ghost predicate Burst(a: seq<byte>, b: seq<byte>, from: nat) {
    && |a| == |b| && a != b
    && forall i :: 0 <= i < 8 * |a| && Stream(a)[i] != Stream(b)[i] ==> from <= i < from + 16
  }

  // The checksum changes under every burst of at most sixteen bits.
  lemma BurstDetected(a: seq<byte>, b: seq<byte>, from: nat)
    requires Burst(a, b, from)
    ensures Crc(a) != Crc(b)
  {
    var u, v := Stream(a), Stream(b);
    if u == v {
      StreamInjective(a, b);
    }
    var start := if from <= |u| then from else |u|;
    var to := if start + 16 <= |u| then start + 16 else |u|;
    StepTraces();
    StepInvertible();
    BurstSeparates(Step, LowAgree, 16, 0xFFFF, u, v, start, to);
  }
}
