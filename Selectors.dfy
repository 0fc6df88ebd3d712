/**
 * Selector recovery: a five-instruction window slides over the disassembled
 * code, one instruction at a time, and three dispatcher idioms are
 * recognized in it.  A match yields the immediate of the idiom's selector
 * push, left-padded to four bytes; the result keeps each selector once, in
 * the order of its first match.
 *
 *   solc:       DUP1 PUSHn <selector> EQ PUSHm <target> JUMPI
 *   Vyper XOR:  PUSHn <selector> DUP2 XOR PUSHm <target> JUMPI
 *   Vyper MLOAD (older releases):  PUSHn <selector> PUSH1 MLOAD EQ ISZERO
 *
 * with n between 1 and 4.
 */
module Selectors {

  import opened Utils
  import opened Opcodes
  import opened Disassembler

  /** A function selector: the four leading bytes of call data (bytes4). */
  type Selector = s: seq<uint8> | |s| == 4 witness [0, 0, 0, 0]

  /** A push whose immediate fits in a selector: PUSH1 ... PUSH4. */
  predicate IsPush4OrLe(op: Opcode) {
    op.Push? && 1 <= op.width <= 4
  }

  /** The pushes of one to four immediate bytes are exactly the value pushes of size at most four. */
  lemma IsPush4OrLeIff(op: Opcode)
    ensures IsPush4OrLe(op) <==> IsValuePush(op) && PushValueSize(op) <= 4
  {
  }

  /** A short immediate with zero bytes in front, to four bytes. */
  function LeftPad(v: seq<uint8>): Selector
    requires |v| <= 4
  {
    seq(4 - |v|, _ => 0) + v
  }

  /** The unsigned big-endian value of a byte string. */
  function BigEndian(s: seq<uint8>): nat {
    if s == [] then 0 else BigEndian(s[..|s| - 1]) * 256 + s[|s| - 1]
  }

  lemma {:induction false} BigEndianZeros(k: nat)
    ensures BigEndian(seq(k, _ => 0)) == 0
  {
    if k > 0 {
      assert seq(k, _ => 0)[..k - 1] == seq(k - 1, _ => 0);
      BigEndianZeros(k - 1);
    }
  }

  lemma {:induction false} BigEndianZeroPrefix(k: nat, v: seq<uint8>)
    ensures BigEndian(seq(k, _ => 0) + v) == BigEndian(v)
  {
    var z: seq<uint8> := seq(k, _ => 0);
    if v == [] {
      assert z + v == z;
      BigEndianZeros(k);
    } else {
      var v' := v[..|v| - 1];
      assert (z + v)[..|z + v| - 1] == z + v';
      BigEndianZeroPrefix(k, v');
    }
  }

  lemma LeftPadBytes(v: seq<uint8>)
    requires |v| <= 4
    ensures LeftPad(v)[4 - |v|..] == v
    ensures forall i :: 0 <= i < 4 - |v| ==> LeftPad(v)[i] == 0
    ensures |v| == 4 ==> LeftPad(v) == v
  {
    var z: seq<uint8> := seq(4 - |v|, _ => 0);
    assert (z + v)[|z|..] == v;
    if |v| == 4 {
      assert z == [];
    }
  }

  lemma LeftPadValue(v: seq<uint8>)
    requires |v| <= 4
    ensures BigEndian(LeftPad(v)) == BigEndian(v)
  {
    BigEndianZeroPrefix(4 - |v|, v);
  }

  /**
   * Padding keeps the immediate as the selector's last bytes, puts zeros in
   * front, and keeps the value the push puts on the stack.
   */
  lemma LeftPadFacts(v: seq<uint8>)
    requires |v| <= 4
    ensures LeftPad(v)[4 - |v|..] == v
    ensures forall i :: 0 <= i < 4 - |v| ==> LeftPad(v)[i] == 0
    ensures BigEndian(LeftPad(v)) == BigEndian(v)
    ensures |v| == 4 ==> LeftPad(v) == v
  {
    LeftPadBytes(v);
    LeftPadValue(v);
  }

  /** Converts an immediate of at most four bytes to a selector (`slice_to_selector`). */
  method SliceToSelector(pushValue: seq<uint8>) returns (selector: Selector)
    requires |pushValue| <= 4
    ensures selector == LeftPad(pushValue)
  {
    if |pushValue| == 4 {
      return pushValue;
    }
    var a := new uint8[4](_ => 0);
    var start := 4 - |pushValue|;
    for i := start to 4
      invariant forall k :: 0 <= k < start ==> a[k] == 0
      invariant forall k :: start <= k < i ==> a[k] == pushValue[k - start]
    {
      a[i] := pushValue[i - start];
    }
    selector := a[..];
  }

  // The three idioms, on a window of five instructions.

  predicate SolcAt(w: seq<Instruction>)
    requires |w| == 5
  {
    && w[0].opcode == Dup(1)
    && IsPush4OrLe(w[1].opcode)
    && w[2].opcode == CompareBitwise(Eq)
    && IsValuePush(w[3].opcode)
    && w[4].opcode == StackMemoryFlow(Jumpi)
  }

  predicate VyperXorAt(w: seq<Instruction>)
    requires |w| == 5
  {
    && IsPush4OrLe(w[0].opcode)
    && w[1].opcode == Dup(2)
    && w[2].opcode == CompareBitwise(Xor)
    && IsValuePush(w[3].opcode)
    && w[4].opcode == StackMemoryFlow(Jumpi)
  }

  /** Only the opcode PUSH1 is required at position 1, whatever its immediate. */
  predicate VyperMloadAt(w: seq<Instruction>)
    requires |w| == 5
  {
    && IsPush4OrLe(w[0].opcode)
    && w[1].opcode == Push(1)
    && w[2].opcode == StackMemoryFlow(Mload)
    && w[3].opcode == CompareBitwise(Eq)
    && w[4].opcode == CompareBitwise(Iszero)
  }

  predicate AllFit(bs: seq<Instruction>) {
    forall k :: 0 <= k < |bs| ==> ImmediateFits(bs[k])
  }

  /** The selector a window yields, if it matches: the solc test first, then the two Vyper ones. */
  function MatchWindow(w: seq<Instruction>): Option<Selector>
    requires |w| == 5 && AllFit(w)
  {
    if SolcAt(w) then Some(LeftPad(w[1].pushValue.value))
    else if VyperXorAt(w) then Some(LeftPad(w[0].pushValue.value))
    else if VyperMloadAt(w) then Some(LeftPad(w[0].pushValue.value))
    else None
  }

  /**
   * No window matches two idioms (position 0 holds DUP1 or a push, position
   * 1 DUP2 or PUSH1), so the order of the tests does not matter.
   */
  lemma PatternsExclusive(w: seq<Instruction>)
    requires |w| == 5 && AllFit(w)
    ensures !(SolcAt(w) && VyperXorAt(w))
    ensures !(SolcAt(w) && VyperMloadAt(w))
    ensures !(VyperXorAt(w) && VyperMloadAt(w))
    ensures MatchWindow(w).Some? <==> SolcAt(w) || VyperXorAt(w) || VyperMloadAt(w)
  {
  }

  /** The window that ends at instruction k. */
  function Window(bs: seq<Instruction>, k: nat): seq<Instruction>
    requires 4 <= k < |bs|
  {
    bs[k - 4..k + 1]
  }

  /** The selectors of the matching windows that end below n, with repeats, in window order. */
  function Matches(bs: seq<Instruction>, n: nat): seq<Selector>
    requires n <= |bs| && AllFit(bs)
  {
    if n < 5 then []
    else
      var earlier := Matches(bs, n - 1);
      match MatchWindow(Window(bs, n - 1))
      case Some(s) => earlier + [s]
      case None => earlier
  }

  /** Keeps the first occurrence of each element, in order. */
  function Dedup<T(==)>(xs: seq<T>): seq<T> {
    if xs == [] then []
    else
      var d := Dedup(xs[..|xs| - 1]);
      if xs[|xs| - 1] in d then d else d + [xs[|xs| - 1]]
  }

  /** The selectors recovered from some code. */
  function SelectorsOf(code: seq<uint8>): seq<Selector> {
    var bs := Disassemble(code);
    DisassembleImmediates(code);
    Dedup(Matches(bs, |bs|))
  }

  /**
   * Appends a selector unless it is already in the list (the `save_selector`
   * closure): a list that keeps the first occurrences of seen keeps those of
   * seen followed by the selector.
   */
  method SaveSelector(selectors: seq<Selector>, selector: Selector, ghost seen: seq<Selector>)
    returns (saved: seq<Selector>)
    requires selectors == Dedup(seen)
    ensures saved == Dedup(seen + [selector])
  {
    DedupSnoc(seen);
    saved := selectors;
    if selector !in saved {
      saved := saved + [selector];
    }
  }

  /**
   * The window loop of `selectors_from_bytecode`: slides the window over the
   * instructions and saves the selector of each matching window.
   */
  method ScanWindows(bytecode: seq<Instruction>) returns (selectors: seq<Selector>)
    requires AllFit(bytecode)
    ensures selectors == Dedup(Matches(bytecode, |bytecode|))
  {
    selectors := [];
    var i := 4;
    while i < |bytecode|
      invariant 4 <= i
      invariant selectors == Dedup(Matches(bytecode, Min(i, |bytecode|)))
      decreases |bytecode| - i
    {
      var fiveSeq := bytecode[i - 4..i + 1];
      assert fiveSeq == Window(bytecode, i);
      i := i + 1;
      if SolcAt(fiveSeq) {
        var value := SliceToSelector(fiveSeq[1].pushValue.value);
        selectors := SaveSelector(selectors, value, Matches(bytecode, i - 1));
        continue;
      }
      if VyperXorAt(fiveSeq) {
        var value := SliceToSelector(fiveSeq[0].pushValue.value);
        selectors := SaveSelector(selectors, value, Matches(bytecode, i - 1));
        continue;
      }
      if VyperMloadAt(fiveSeq) {
        var value := SliceToSelector(fiveSeq[0].pushValue.value);
        selectors := SaveSelector(selectors, value, Matches(bytecode, i - 1));
      }
    }
  }

  /** Recovers the selectors of some code (`selectors_from_bytecode`). */
  method SelectorsFromBytecode(code: seq<uint8>) returns (selectors: seq<Selector>)
    ensures selectors == SelectorsOf(code)
  {
    var bytecode := DisasmTruncating(code);
    DisassembleImmediates(code);
    selectors := ScanWindows(bytecode);
  }

  // Properties of the recovered list.

  /** Appending one element to the input of Dedup. */
  lemma DedupSnoc<T>(xs: seq<T>)
    ensures forall x :: Dedup(xs + [x]) == if x in Dedup(xs) then Dedup(xs) else Dedup(xs) + [x]
  {
    forall x
      ensures Dedup(xs + [x]) == if x in Dedup(xs) then Dedup(xs) else Dedup(xs) + [x]
    {
      assert (xs + [x])[..|xs|] == xs;
    }
  }

  predicate NoDuplicates<T(==)>(xs: seq<T>) {
    forall i, j :: 0 <= i < j < |xs| ==> xs[i] != xs[j]
  }

  /** Dedup keeps exactly the elements of its input. */
  lemma {:induction false} DedupMembers<T>(xs: seq<T>)
    ensures forall x :: x in Dedup(xs) <==> x in xs
  {
    if xs != [] {
      DedupMembers(xs[..|xs| - 1]);
      assert xs == xs[..|xs| - 1] + [xs[|xs| - 1]];
    }
  }

  lemma {:induction false} DedupNoDuplicates<T>(xs: seq<T>)
    ensures NoDuplicates(Dedup(xs))
  {
    if xs != [] {
      DedupNoDuplicates(xs[..|xs| - 1]);
    }
  }

  /** The position of the first occurrence of x in xs. */
  function FirstIndex<T(==)>(xs: seq<T>, x: T): (r: nat)
    requires x in xs
    ensures r < |xs| && xs[r] == x && x !in xs[..r]
  {
    if x in xs[..|xs| - 1] then FirstIndex(xs[..|xs| - 1], x) else |xs| - 1
  }

  /** Dedup lists the elements in the order of their first occurrence. */
  lemma {:induction false} DedupOrder<T>(xs: seq<T>)
    ensures forall x :: x in Dedup(xs) ==> x in xs
    ensures forall i, j :: 0 <= i < j < |Dedup(xs)| ==> FirstIndex(xs, Dedup(xs)[i]) < FirstIndex(xs, Dedup(xs)[j])
  {
    DedupMembers(xs);
    if xs != [] {
      var init := xs[..|xs| - 1];
      var y := xs[|xs| - 1];
      DedupOrder(init);
      DedupMembers(init);
      var d := Dedup(xs);
      forall x | x in init
        ensures FirstIndex(xs, x) == FirstIndex(init, x)
      {
      }
      forall i, j | 0 <= i < j < |d|
        ensures FirstIndex(xs, d[i]) < FirstIndex(xs, d[j])
      {
        if j == |Dedup(init)| {
          assert d[j] == y && y !in init;
          assert d[i] in init;
        } else {
          assert d[i] == Dedup(init)[i] && d[j] == Dedup(init)[j];
        }
      }
    }
  }

  /** Matches holds the selector of every matching window ending below n, and nothing else. */
  lemma {:induction false} MatchesMembers(bs: seq<Instruction>, n: nat, s: Selector)
    requires n <= |bs| && AllFit(bs)
    ensures s in Matches(bs, n) <==> exists k :: 4 <= k < n && MatchWindow(Window(bs, k)) == Some(s)
  {
    if n >= 5 {
      MatchesMembers(bs, n - 1, s);
      if MatchWindow(Window(bs, n - 1)) == Some(s) {
        assert 4 <= n - 1 < n;
      }
    }
  }

  /**
   * A selector is recovered iff some window, at any position with the
   * window advancing by one each time, matches an idiom that yields it.
   */
  lemma SelectorsOfMembers(code: seq<uint8>, s: Selector)
    ensures var bs := Disassemble(code);
      AllFit(bs) && (s in SelectorsOf(code) <==> exists k :: 4 <= k < |bs| && MatchWindow(Window(bs, k)) == Some(s))
  {
    var bs := Disassemble(code);
    DisassembleImmediates(code);
    DedupMembers(Matches(bs, |bs|));
    MatchesMembers(bs, |bs|, s);
  }

  /** No selector is recovered twice. */
  lemma SelectorsOfNoDuplicates(code: seq<uint8>)
    ensures NoDuplicates(SelectorsOf(code))
  {
    var bs := Disassemble(code);
    DisassembleImmediates(code);
    DedupNoDuplicates(Matches(bs, |bs|));
  }

  /** Recovered selectors come in the order of their first matching window. */
  lemma SelectorsOfOrder(code: seq<uint8>)
    ensures var bs := Disassemble(code);
      && AllFit(bs)
      && (forall s :: s in SelectorsOf(code) ==> s in Matches(bs, |bs|))
      && (forall i, j :: 0 <= i < j < |SelectorsOf(code)| ==>
            FirstIndex(Matches(bs, |bs|), SelectorsOf(code)[i]) < FirstIndex(Matches(bs, |bs|), SelectorsOf(code)[j]))
  {
    var bs := Disassemble(code);
    DisassembleImmediates(code);
    DedupOrder(Matches(bs, |bs|));
  }

  /** Code of fewer than five instructions yields no selector. */
  lemma FewInstructions(code: seq<uint8>)
    requires |Disassemble(code)| < 5
    ensures SelectorsOf(code) == []
  {
  }

  // The three idioms on small pieces of dispatcher code.

  const SolcCode: seq<uint8> := [0x80, 0x63, 0xa9, 0x05, 0x9c, 0xbb, 0x14, 0x61, 0x00, 0x10, 0x57]

  lemma SolcCodeTail()
    ensures DisasmFrom(SolcCode, 6, 6) == [
      Instruction(CompareBitwise(Eq), 6, None), Instruction(Push(2), 7, Some([0x00, 0x10])),
      Instruction(StackMemoryFlow(Jumpi), 10, None)]
  {
    var code := SolcCode;
    assert DisasmFrom(code, 11, 11) == [];
    assert DisasmFrom(code, 10, 10) == [Instruction(StackMemoryFlow(Jumpi), 10, None)];
    assert code[8..10] == [0x00, 0x10];
    assert DisasmFrom(code, 7, 7) == [Instruction(Push(2), 7, Some([0x00, 0x10]))] + DisasmFrom(code, 10, 10);
  }

  lemma SolcCodeDisassembly()
    ensures Disassemble(SolcCode) == [
      Instruction(Dup(1), 0, None), Instruction(Push(4), 1, Some([0xa9, 0x05, 0x9c, 0xbb])),
      Instruction(CompareBitwise(Eq), 6, None), Instruction(Push(2), 7, Some([0x00, 0x10])),
      Instruction(StackMemoryFlow(Jumpi), 10, None)]
  {
    var code := SolcCode;
    SolcCodeTail();
    assert code[2..6] == [0xa9, 0x05, 0x9c, 0xbb];
    assert DisasmFrom(code, 1, 1) == [Instruction(Push(4), 1, Some([0xa9, 0x05, 0x9c, 0xbb]))] + DisasmFrom(code, 6, 6);
  }

  /** A window that matches yields one selector. */
  lemma SingleWindow(bs: seq<Instruction>, s: Selector)
    requires |bs| == 5 && AllFit(bs)
    requires MatchWindow(bs) == Some(s)
    ensures Dedup(Matches(bs, 5)) == [s]
  {
    assert Window(bs, 4) == bs;
    assert Matches(bs, 5) == [s];
    assert [s][..0] == [];
  }

  /** DUP1 PUSH4 a9059cbb EQ PUSH2 0010 JUMPI yields the selector of transfer(address,uint256). */
  lemma SolcExample()
    ensures SelectorsOf(SolcCode) == [[0xa9, 0x05, 0x9c, 0xbb]]
  {
    SolcCodeDisassembly();
    var bs := Disassemble(SolcCode);
    DisassembleImmediates(SolcCode);
    assert SolcAt(bs);
    assert LeftPad([0xa9, 0x05, 0x9c, 0xbb]) == [0xa9, 0x05, 0x9c, 0xbb];
    SingleWindow(bs, [0xa9, 0x05, 0x9c, 0xbb]);
  }

  const VyperXorCode: seq<uint8> := [0x61, 0x9c, 0xbb, 0x81, 0x18, 0x61, 0x00, 0x20, 0x57]

  lemma VyperXorCodeTail()
    ensures DisasmFrom(VyperXorCode, 4, 4) == [
      Instruction(CompareBitwise(Xor), 4, None), Instruction(Push(2), 5, Some([0x00, 0x20])),
      Instruction(StackMemoryFlow(Jumpi), 8, None)]
  {
    var code := VyperXorCode;
    assert DisasmFrom(code, 9, 9) == [];
    assert DisasmFrom(code, 8, 8) == [Instruction(StackMemoryFlow(Jumpi), 8, None)];
    assert code[6..8] == [0x00, 0x20];
    assert DisasmFrom(code, 5, 5) == [Instruction(Push(2), 5, Some([0x00, 0x20]))] + DisasmFrom(code, 8, 8);
  }

  lemma VyperXorCodeDisassembly()
    ensures Disassemble(VyperXorCode) == [
      Instruction(Push(2), 0, Some([0x9c, 0xbb])), Instruction(Dup(2), 3, None),
      Instruction(CompareBitwise(Xor), 4, None), Instruction(Push(2), 5, Some([0x00, 0x20])),
      Instruction(StackMemoryFlow(Jumpi), 8, None)]
  {
    var code := VyperXorCode;
    VyperXorCodeTail();
    assert DisasmFrom(code, 3, 3) == [Instruction(Dup(2), 3, None)] + DisasmFrom(code, 4, 4);
    assert code[1..3] == [0x9c, 0xbb];
  }

  /** PUSH2 9cbb DUP2 XOR PUSH2 0020 JUMPI yields a selector with two leading zero bytes. */
  lemma VyperXorExample()
    ensures SelectorsOf(VyperXorCode) == [[0x00, 0x00, 0x9c, 0xbb]]
  {
    VyperXorCodeDisassembly();
    var bs := Disassemble(VyperXorCode);
    DisassembleImmediates(VyperXorCode);
    assert VyperXorAt(bs);
    assert LeftPad([0x9c, 0xbb]) == [0x00, 0x00, 0x9c, 0xbb];
    SingleWindow(bs, [0x00, 0x00, 0x9c, 0xbb]);
  }

  const VyperMloadCode: seq<uint8> := [0x63, 0x12, 0x34, 0x56, 0x78, 0x60, 0x05, 0x51, 0x14, 0x15]

  lemma VyperMloadCodeTail()
    ensures DisasmFrom(VyperMloadCode, 5, 5) == [
      Instruction(Push(1), 5, Some([0x05])), Instruction(StackMemoryFlow(Mload), 7, None),
      Instruction(CompareBitwise(Eq), 8, None), Instruction(CompareBitwise(Iszero), 9, None)]
  {
    var code := VyperMloadCode;
    assert DisasmFrom(code, 10, 10) == [];
    assert DisasmFrom(code, 9, 9) == [Instruction(CompareBitwise(Iszero), 9, None)];
    assert DisasmFrom(code, 8, 8) == [Instruction(CompareBitwise(Eq), 8, None)] + DisasmFrom(code, 9, 9);
    assert DisasmFrom(code, 7, 7) == [Instruction(StackMemoryFlow(Mload), 7, None)] + DisasmFrom(code, 8, 8);
    assert code[6..7] == [0x05];
  }

  lemma VyperMloadCodeDisassembly()
    ensures Disassemble(VyperMloadCode) == [
      Instruction(Push(4), 0, Some([0x12, 0x34, 0x56, 0x78])), Instruction(Push(1), 5, Some([0x05])),
      Instruction(StackMemoryFlow(Mload), 7, None), Instruction(CompareBitwise(Eq), 8, None),
      Instruction(CompareBitwise(Iszero), 9, None)]
  {
    VyperMloadCodeTail();
    assert VyperMloadCode[1..5] == [0x12, 0x34, 0x56, 0x78];
  }

  /**
   * PUSH4 12345678 PUSH1 05 MLOAD EQ ISZERO yields 12345678: the immediate
   * of the PUSH1 is not inspected.
   */
  lemma VyperMloadExample()
    ensures SelectorsOf(VyperMloadCode) == [[0x12, 0x34, 0x56, 0x78]]
  {
    VyperMloadCodeDisassembly();
    var bs := Disassemble(VyperMloadCode);
    DisassembleImmediates(VyperMloadCode);
    assert VyperMloadAt(bs);
    assert LeftPad([0x12, 0x34, 0x56, 0x78]) == [0x12, 0x34, 0x56, 0x78];
    SingleWindow(bs, [0x12, 0x34, 0x56, 0x78]);
  }

  // The hex form of the result.

  /** A selector as "0x" and eight lowercase hex digits. */
  function SelectorString(s: Selector): (t: string)
    ensures |t| == 10 && t[..2] == "0x"
    ensures HexToBytes(t[2..]).Some? && HexToBytes(t[2..]).value == s
  {
    HexToBytesOfBytesToHex(s);
    assert ("0x" + BytesToHex(s))[2..] == BytesToHex(s);
    "0x" + BytesToHex(s)
  }

  /** The ten characters of a selector's hex form. */
  lemma SelectorStringDigits(s: Selector)
    ensures SelectorString(s) == ['0', 'x',
      HexDigit(s[0] / 16), HexDigit(s[0] % 16), HexDigit(s[1] / 16), HexDigit(s[1] % 16),
      HexDigit(s[2] / 16), HexDigit(s[2] % 16), HexDigit(s[3] / 16), HexDigit(s[3] % 16)]
  {
    BytesToHexDigits(s);
  }

  /** A string is the hex form of a selector when its ten characters are. */
  lemma SelectorStringOf(s: Selector, t: string)
    requires |t| == 10 && t[0] == '0' && t[1] == 'x'
    requires t[2] == HexDigit(s[0] / 16) && t[3] == HexDigit(s[0] % 16)
    requires t[4] == HexDigit(s[1] / 16) && t[5] == HexDigit(s[1] % 16)
    requires t[6] == HexDigit(s[2] / 16) && t[7] == HexDigit(s[2] % 16)
    requires t[8] == HexDigit(s[3] / 16) && t[9] == HexDigit(s[3] % 16)
    ensures SelectorString(s) == t
  {
    SelectorStringDigits(s);
  }

  /** The hex form of each selector, in the same order. */
  function StringSelectors(sels: seq<Selector>): (r: seq<string>)
    ensures |r| == |sels|
    ensures forall i :: 0 <= i < |r| ==> r[i] == SelectorString(sels[i])
  {
    if sels == [] then [] else [SelectorString(sels[0])] + StringSelectors(sels[1..])
  }

  /** Distinct selectors have distinct hex forms, so the hex list has no repeats either. */
  lemma StringSelectorsNoDuplicates(sels: seq<Selector>)
    requires NoDuplicates(sels)
    ensures NoDuplicates(StringSelectors(sels))
  {
    var r := StringSelectors(sels);
    forall i, j | 0 <= i < j < |r|
      ensures r[i] != r[j]
    {
    }
  }

  /** Recovers the selectors of some code as hex strings (`string_selectors_from_bytecode`). */
  method StringSelectorsFromBytecode(code: seq<uint8>) returns (strs: seq<string>)
    ensures strs == StringSelectors(SelectorsOf(code))
  {
    var selectors := SelectorsFromBytecode(code);
    strs := StringSelectors(selectors);
  }

  // The expected lists of the repository's tests, in blocks of two.

  const ExpectedSelectorsA: seq<Selector> := [[0x06, 0xfd, 0xde, 0x03], [0x07, 0x53, 0xc3, 0x0c]]
  const ExpectedStringsA: seq<string> := ["0x06fdde03", "0x0753c30c"]
  const ExpectedSelectorsB: seq<Selector> := [[0x09, 0x5e, 0xa7, 0xb3], [0x0e, 0x13, 0x6b, 0x19]]
  const ExpectedStringsB: seq<string> := ["0x095ea7b3", "0x0e136b19"]
  const ExpectedSelectorsC: seq<Selector> := [[0x0e, 0xcb, 0x93, 0xc0], [0x18, 0x16, 0x0d, 0xdd]]
  const ExpectedStringsC: seq<string> := ["0x0ecb93c0", "0x18160ddd"]
  const ExpectedSelectorsD: seq<Selector> := [[0x23, 0xb8, 0x72, 0xdd], [0x26, 0x97, 0x6e, 0x3f]]
  const ExpectedStringsD: seq<string> := ["0x23b872dd", "0x26976e3f"]
  const ExpectedSelectorsE: seq<Selector> := [[0x27, 0xe2, 0x35, 0xe3], [0x31, 0x3c, 0xe5, 0x67]]
  const ExpectedStringsE: seq<string> := ["0x27e235e3", "0x313ce567"]
  const ExpectedSelectorsF: seq<Selector> := [[0x35, 0x39, 0x07, 0x14], [0x3e, 0xaa, 0xf8, 0x6b]]
  const ExpectedStringsF: seq<string> := ["0x35390714", "0x3eaaf86b"]
  const ExpectedSelectorsG: seq<Selector> := [[0x3f, 0x4b, 0xa8, 0x3a], [0x59, 0xbf, 0x1a, 0xbe]]
  const ExpectedStringsG: seq<string> := ["0x3f4ba83a", "0x59bf1abe"]
  const ExpectedSelectorsH: seq<Selector> := [[0x5c, 0x65, 0x81, 0x65], [0x5c, 0x97, 0x5a, 0xbb]]
  const ExpectedStringsH: seq<string> := ["0x5c658165", "0x5c975abb"]
  const ExpectedSelectorsI: seq<Selector> := [[0x70, 0xa0, 0x82, 0x31], [0x84, 0x56, 0xcb, 0x59]]
  const ExpectedStringsI: seq<string> := ["0x70a08231", "0x8456cb59"]
  const ExpectedSelectorsJ: seq<Selector> := [[0x89, 0x3d, 0x20, 0xe8], [0x8d, 0xa5, 0xcb, 0x5b]]
  const ExpectedStringsJ: seq<string> := ["0x893d20e8", "0x8da5cb5b"]
  const ExpectedSelectorsK: seq<Selector> := [[0x95, 0xd8, 0x9b, 0x41], [0xa9, 0x05, 0x9c, 0xbb]]
  const ExpectedStringsK: seq<string> := ["0x95d89b41", "0xa9059cbb"]
  const ExpectedSelectorsL: seq<Selector> := [[0xc0, 0x32, 0x4c, 0x77], [0xcc, 0x87, 0x2b, 0x66]]
  const ExpectedStringsL: seq<string> := ["0xc0324c77", "0xcc872b66"]
  const ExpectedSelectorsM: seq<Selector> := [[0xdb, 0x00, 0x6a, 0x75], [0xdd, 0x62, 0xed, 0x3e]]
  const ExpectedStringsM: seq<string> := ["0xdb006a75", "0xdd62ed3e"]
  const ExpectedSelectorsN: seq<Selector> := [[0xdd, 0x64, 0x4f, 0x72], [0xe4, 0x7d, 0x60, 0x60]]
  const ExpectedStringsN: seq<string> := ["0xdd644f72", "0xe47d6060"]
  const ExpectedSelectorsO: seq<Selector> := [[0xe4, 0x99, 0x7d, 0xc5], [0xe5, 0xb5, 0x01, 0x9a]]
  const ExpectedStringsO: seq<string> := ["0xe4997dc5", "0xe5b5019a"]
  const ExpectedSelectorsP: seq<Selector> := [[0xf2, 0xfd, 0xe3, 0x8b], [0xf3, 0xbd, 0xc2, 0x28]]
  const ExpectedStringsP: seq<string> := ["0xf2fde38b", "0xf3bdc228"]

  const ExpectedSelectors: seq<Selector> :=
    (ExpectedSelectorsA + ExpectedSelectorsB + ExpectedSelectorsC + ExpectedSelectorsD) +
    (ExpectedSelectorsE + ExpectedSelectorsF + ExpectedSelectorsG + ExpectedSelectorsH) +
    (ExpectedSelectorsI + ExpectedSelectorsJ + ExpectedSelectorsK + ExpectedSelectorsL) +
    (ExpectedSelectorsM + ExpectedSelectorsN + ExpectedSelectorsO + ExpectedSelectorsP)

  const ExpectedStrings: seq<string> :=
    (ExpectedStringsA + ExpectedStringsB + ExpectedStringsC + ExpectedStringsD) +
    (ExpectedStringsE + ExpectedStringsF + ExpectedStringsG + ExpectedStringsH) +
    (ExpectedStringsI + ExpectedStringsJ + ExpectedStringsK + ExpectedStringsL) +
    (ExpectedStringsM + ExpectedStringsN + ExpectedStringsO + ExpectedStringsP)

  lemma StringSelectorsConcat(a: seq<Selector>, b: seq<Selector>)
    ensures StringSelectors(a + b) == StringSelectors(a) + StringSelectors(b)
  {
  }

  lemma ExpectedBlockA()
    ensures StringSelectors(ExpectedSelectorsA) == ExpectedStringsA
  {
    SelectorStringOf(ExpectedSelectorsA[0], ExpectedStringsA[0]);
    SelectorStringOf(ExpectedSelectorsA[1], ExpectedStringsA[1]);
  }

  lemma ExpectedBlockB()
    ensures StringSelectors(ExpectedSelectorsB) == ExpectedStringsB
  {
    SelectorStringOf(ExpectedSelectorsB[0], ExpectedStringsB[0]);
    SelectorStringOf(ExpectedSelectorsB[1], ExpectedStringsB[1]);
  }

  lemma ExpectedBlockC()
    ensures StringSelectors(ExpectedSelectorsC) == ExpectedStringsC
  {
    SelectorStringOf(ExpectedSelectorsC[0], ExpectedStringsC[0]);
    SelectorStringOf(ExpectedSelectorsC[1], ExpectedStringsC[1]);
  }

  lemma ExpectedBlockD()
    ensures StringSelectors(ExpectedSelectorsD) == ExpectedStringsD
  {
    SelectorStringOf(ExpectedSelectorsD[0], ExpectedStringsD[0]);
    SelectorStringOf(ExpectedSelectorsD[1], ExpectedStringsD[1]);
  }

  lemma ExpectedBlockE()
    ensures StringSelectors(ExpectedSelectorsE) == ExpectedStringsE
  {
    SelectorStringOf(ExpectedSelectorsE[0], ExpectedStringsE[0]);
    SelectorStringOf(ExpectedSelectorsE[1], ExpectedStringsE[1]);
  }

  lemma ExpectedBlockF()
    ensures StringSelectors(ExpectedSelectorsF) == ExpectedStringsF
  {
    SelectorStringOf(ExpectedSelectorsF[0], ExpectedStringsF[0]);
    SelectorStringOf(ExpectedSelectorsF[1], ExpectedStringsF[1]);
  }

  lemma ExpectedBlockG()
    ensures StringSelectors(ExpectedSelectorsG) == ExpectedStringsG
  {
    SelectorStringOf(ExpectedSelectorsG[0], ExpectedStringsG[0]);
    SelectorStringOf(ExpectedSelectorsG[1], ExpectedStringsG[1]);
  }

  lemma ExpectedBlockH()
    ensures StringSelectors(ExpectedSelectorsH) == ExpectedStringsH
  {
    SelectorStringOf(ExpectedSelectorsH[0], ExpectedStringsH[0]);
    SelectorStringOf(ExpectedSelectorsH[1], ExpectedStringsH[1]);
  }

  lemma ExpectedBlockI()
    ensures StringSelectors(ExpectedSelectorsI) == ExpectedStringsI
  {
    SelectorStringOf(ExpectedSelectorsI[0], ExpectedStringsI[0]);
    SelectorStringOf(ExpectedSelectorsI[1], ExpectedStringsI[1]);
  }

  lemma ExpectedBlockJ()
    ensures StringSelectors(ExpectedSelectorsJ) == ExpectedStringsJ
  {
    SelectorStringOf(ExpectedSelectorsJ[0], ExpectedStringsJ[0]);
    SelectorStringOf(ExpectedSelectorsJ[1], ExpectedStringsJ[1]);
  }

  lemma ExpectedBlockK()
    ensures StringSelectors(ExpectedSelectorsK) == ExpectedStringsK
  {
    SelectorStringOf(ExpectedSelectorsK[0], ExpectedStringsK[0]);
    SelectorStringOf(ExpectedSelectorsK[1], ExpectedStringsK[1]);
  }

  lemma ExpectedBlockL()
    ensures StringSelectors(ExpectedSelectorsL) == ExpectedStringsL
  {
    SelectorStringOf(ExpectedSelectorsL[0], ExpectedStringsL[0]);
    SelectorStringOf(ExpectedSelectorsL[1], ExpectedStringsL[1]);
  }

  lemma ExpectedBlockM()
    ensures StringSelectors(ExpectedSelectorsM) == ExpectedStringsM
  {
    SelectorStringOf(ExpectedSelectorsM[0], ExpectedStringsM[0]);
    SelectorStringOf(ExpectedSelectorsM[1], ExpectedStringsM[1]);
  }

  lemma ExpectedBlockN()
    ensures StringSelectors(ExpectedSelectorsN) == ExpectedStringsN
  {
    SelectorStringOf(ExpectedSelectorsN[0], ExpectedStringsN[0]);
    SelectorStringOf(ExpectedSelectorsN[1], ExpectedStringsN[1]);
  }

  lemma ExpectedBlockO()
    ensures StringSelectors(ExpectedSelectorsO) == ExpectedStringsO
  {
    SelectorStringOf(ExpectedSelectorsO[0], ExpectedStringsO[0]);
    SelectorStringOf(ExpectedSelectorsO[1], ExpectedStringsO[1]);
  }

  lemma ExpectedBlockP()
    ensures StringSelectors(ExpectedSelectorsP) == ExpectedStringsP
  {
    SelectorStringOf(ExpectedSelectorsP[0], ExpectedStringsP[0]);
    SelectorStringOf(ExpectedSelectorsP[1], ExpectedStringsP[1]);
  }

  /** The two expected lists of the repository's tests are each other's hex form. */
  lemma ExpectedListsAgree()
    ensures StringSelectors(ExpectedSelectors) == ExpectedStrings
  {
    ExpectedBlockA();
    ExpectedBlockB();
    ExpectedBlockC();
    ExpectedBlockD();
    ExpectedBlockE();
    ExpectedBlockF();
    ExpectedBlockG();
    ExpectedBlockH();
    ExpectedBlockI();
    ExpectedBlockJ();
    ExpectedBlockK();
    ExpectedBlockL();
    ExpectedBlockM();
    ExpectedBlockN();
    ExpectedBlockO();
    ExpectedBlockP();
    StringSelectorsConcat(ExpectedSelectorsA, ExpectedSelectorsB);
    StringSelectorsConcat(ExpectedSelectorsA + ExpectedSelectorsB, ExpectedSelectorsC);
    StringSelectorsConcat(ExpectedSelectorsA + ExpectedSelectorsB + ExpectedSelectorsC, ExpectedSelectorsD);
    StringSelectorsConcat(ExpectedSelectorsE, ExpectedSelectorsF);
    StringSelectorsConcat(ExpectedSelectorsE + ExpectedSelectorsF, ExpectedSelectorsG);
    StringSelectorsConcat(ExpectedSelectorsE + ExpectedSelectorsF + ExpectedSelectorsG, ExpectedSelectorsH);
    StringSelectorsConcat(ExpectedSelectorsI, ExpectedSelectorsJ);
    StringSelectorsConcat(ExpectedSelectorsI + ExpectedSelectorsJ, ExpectedSelectorsK);
    StringSelectorsConcat(ExpectedSelectorsI + ExpectedSelectorsJ + ExpectedSelectorsK, ExpectedSelectorsL);
    StringSelectorsConcat(ExpectedSelectorsM, ExpectedSelectorsN);
    StringSelectorsConcat(ExpectedSelectorsM + ExpectedSelectorsN, ExpectedSelectorsO);
    StringSelectorsConcat(ExpectedSelectorsM + ExpectedSelectorsN + ExpectedSelectorsO, ExpectedSelectorsP);
    StringSelectorsConcat((ExpectedSelectorsA + ExpectedSelectorsB + ExpectedSelectorsC + ExpectedSelectorsD), (ExpectedSelectorsE + ExpectedSelectorsF + ExpectedSelectorsG + ExpectedSelectorsH));
    StringSelectorsConcat((ExpectedSelectorsA + ExpectedSelectorsB + ExpectedSelectorsC + ExpectedSelectorsD) + (ExpectedSelectorsE + ExpectedSelectorsF + ExpectedSelectorsG + ExpectedSelectorsH), (ExpectedSelectorsI + ExpectedSelectorsJ + ExpectedSelectorsK + ExpectedSelectorsL));
    StringSelectorsConcat((ExpectedSelectorsA + ExpectedSelectorsB + ExpectedSelectorsC + ExpectedSelectorsD) + (ExpectedSelectorsE + ExpectedSelectorsF + ExpectedSelectorsG + ExpectedSelectorsH) + (ExpectedSelectorsI + ExpectedSelectorsJ + ExpectedSelectorsK + ExpectedSelectorsL), (ExpectedSelectorsM + ExpectedSelectorsN + ExpectedSelectorsO + ExpectedSelectorsP));
  }
}
