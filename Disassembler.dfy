/**
 * The disassembler: a single forward pass over the code that decodes one
 * opcode at the byte cursor, attaches the push immediate that follows it,
 * and advances by one plus the immediate size.  Alongside the byte cursor it
 * keeps the logical offset (program counter) of every instruction.
 *
 * Disassemble is the specification.  Disasm is the loop as written: an
 * immediate that runs past the end of the code is a slice out of bounds, so
 * it demands WellFormed code.  DisasmTruncating is total: it truncates such
 * an immediate to the bytes that remain, and the rest of the model uses it.
 * On well-formed code the two agree, since both compute Disassemble.
 */
module Disassembler {

  import opened Utils
  import opened Opcodes

  /** One decoded instruction: the opcode, its position in the code and its push immediate. */
  datatype Instruction = Instruction(opcode: Opcode, offset: nat, pushValue: Option<seq<uint8>>)

  /** The display text of an instruction: the mnemonic, then a space and the hex immediate if any. */
  function Display(ins: Instruction): string {
    match ins.pushValue
    case Some(v) => OpString(ins.opcode) + " " + BytesToHex(v)
    case None => OpString(ins.opcode)
  }

  function Min(a: int, b: int): int {
    if a <= b then a else b
  }

  /** The instruction decoded at pos, as the walk builds it. */
  function StepAt(code: seq<uint8>, pos: nat, offset: nat): Instruction
    requires pos < |code|
  {
    var size := ImmediateSize(code[pos]);
    Instruction(FromByte(code[pos]), offset, if size > 0 then Some(code[pos + 1..Min(pos + 1 + size, |code|)]) else None)
  }

  /**
   * The instructions decoded from byte position pos onward, the first one
   * at logical offset offset.  An immediate is cut at the end of the code;
   * the logical offset still advances by the nominal immediate size.
   */
  function DisasmFrom(code: seq<uint8>, pos: nat, offset: nat): seq<Instruction>
    decreases |code| - pos
  {
    if pos >= |code| then []
    else
      var size := ImmediateSize(code[pos]);
      [StepAt(code, pos, offset)] + DisasmFrom(code, Min(pos + 1 + size, |code|), offset + 1 + size)
  }

  function Disassemble(code: seq<uint8>): seq<Instruction> {
    DisasmFrom(code, 0, 0)
  }

  /** Every push immediate from position pos onward fits in the code. */
  predicate WellFormedFrom(code: seq<uint8>, pos: nat)
    decreases |code| - pos
  {
    pos >= |code|
    || (var size := ImmediateSize(code[pos]);
        pos + 1 + size <= |code| && WellFormedFrom(code, pos + 1 + size))
  }

  predicate WellFormed(code: seq<uint8>) {
    WellFormedFrom(code, 0)
  }

  /**
   * The walk as the loops run it: the instructions list done, produced
   * before the cursor reached pos, followed by those decoded from pos on.
   */
  function DisasmAfter(code: seq<uint8>, pos: nat, offset: nat, done: seq<Instruction>): seq<Instruction>
    decreases |code| - pos
  {
    if pos >= |code| then done
    else
      var size := ImmediateSize(code[pos]);
      DisasmAfter(code, Min(pos + 1 + size, |code|), offset + 1 + size, done + [StepAt(code, pos, offset)])
  }

  /** The loops' accumulated walk is the produced list followed by the specified walk. */
  lemma {:induction false} DisasmAfterIsDisasmFrom(code: seq<uint8>, pos: nat, offset: nat, done: seq<Instruction>)
    ensures DisasmAfter(code, pos, offset, done) == done + DisasmFrom(code, pos, offset)
    decreases |code| - pos
  {
    if pos < |code| {
      var size := ImmediateSize(code[pos]);
      var next := Min(pos + 1 + size, |code|);
      var ins := StepAt(code, pos, offset);
      DisasmAfterIsDisasmFrom(code, next, offset + 1 + size, done + [ins]);
      assert (done + [ins]) + DisasmFrom(code, next, offset + 1 + size)
        == done + ([ins] + DisasmFrom(code, next, offset + 1 + size));
    }
  }

  /** The disassembly loop as written: it slices each immediate out of the code unchecked. */
  method Disasm(code: seq<uint8>) returns (bytecode: seq<Instruction>)
    requires WellFormed(code)
    ensures bytecode == Disassemble(code)
  {
    var cursor: nat := 0;
    var codeOffset: nat := 0;
    bytecode := [];
    DisasmAfterIsDisasmFrom(code, 0, 0, []);
    while cursor < |code|
      invariant cursor <= |code|
      invariant cursor == codeOffset
      invariant WellFormedFrom(code, cursor)
      invariant DisasmAfter(code, cursor, codeOffset, bytecode) == Disassemble(code)
      decreases |code| - cursor
    {
      var opcode := FromByte(code[cursor]);
      var size := PushValueSize(opcode);
      FromBytePushValueSize(code[cursor]);
      var pushValue := if IsValuePush(opcode) then Some(code[cursor + 1..cursor + 1 + size]) else None;
      assert Instruction(opcode, codeOffset, pushValue) == StepAt(code, cursor, codeOffset);
      bytecode := bytecode + [Instruction(opcode, codeOffset, pushValue)];
      cursor := cursor + 1 + size;
      codeOffset := codeOffset + 1 + size;
    }
  }

  /** The disassembly loop with the immediate cut at the end of the code: defined for all code. */
  method DisasmTruncating(code: seq<uint8>) returns (bytecode: seq<Instruction>)
    ensures bytecode == Disassemble(code)
  {
    var cursor: nat := 0;
    var codeOffset: nat := 0;
    bytecode := [];
    DisasmAfterIsDisasmFrom(code, 0, 0, []);
    while cursor < |code|
      invariant cursor <= |code|
      invariant DisasmAfter(code, cursor, codeOffset, bytecode) == Disassemble(code)
      decreases |code| - cursor
    {
      var opcode := FromByte(code[cursor]);
      var size := PushValueSize(opcode);
      FromBytePushValueSize(code[cursor]);
      var next := Min(cursor + 1 + size, |code|);
      var pushValue := if IsValuePush(opcode) then Some(code[cursor + 1..next]) else None;
      assert Instruction(opcode, codeOffset, pushValue) == StepAt(code, cursor, codeOffset);
      bytecode := bytecode + [Instruction(opcode, codeOffset, pushValue)];
      cursor := next;
      codeOffset := codeOffset + 1 + size;
    }
  }

  // Properties of the specification.

  /** The push immediate is present exactly on a value push and never longer than announced. */
  predicate ImmediateFits(ins: Instruction) {
    && (ins.pushValue.Some? <==> IsValuePush(ins.opcode))
    && (ins.pushValue.Some? ==> |ins.pushValue.value| <= PushValueSize(ins.opcode))
  }

  lemma {:induction false} DisasmFromOffsets(code: seq<uint8>, pos: nat, offset: nat)
    ensures var r := DisasmFrom(code, pos, offset);
      && (r != [] ==> r[0].offset == offset)
      && (forall i :: 0 <= i < |r| ==> r[i].offset >= offset)
      && (forall i :: 0 <= i < |r| - 1 ==> r[i + 1].offset == r[i].offset + 1 + PushValueSize(r[i].opcode))
    decreases |code| - pos
  {
    if pos < |code| {
      var size := ImmediateSize(code[pos]);
      var next := Min(pos + 1 + size, |code|);
      FromBytePushValueSize(code[pos]);
      DisasmFromOffsets(code, next, offset + 1 + size);
      var r := DisasmFrom(code, pos, offset);
      var rest := DisasmFrom(code, next, offset + 1 + size);
      assert r == [StepAt(code, pos, offset)] + rest;
      forall i | 1 <= i < |r|
        ensures r[i] == rest[i - 1]
      {
      }
    }
  }

  /**
   * Logical offsets: the first instruction is at 0, each next one one plus
   * the previous immediate size further on, so offsets strictly increase.
   */
  lemma DisassembleOffsets(code: seq<uint8>)
    ensures var r := Disassemble(code);
      && (r != [] ==> r[0].offset == 0)
      && (forall i :: 0 <= i < |r| - 1 ==> r[i + 1].offset == r[i].offset + 1 + PushValueSize(r[i].opcode))
      && (forall i, j :: 0 <= i < j < |r| ==> r[i].offset < r[j].offset)
  {
    DisasmFromOffsets(code, 0, 0);
    var r := Disassemble(code);
    forall i, j | 0 <= i < j < |r|
      ensures r[i].offset < r[j].offset
    {
      OffsetsIncrease(r, i, j);
    }
  }

  lemma {:induction false} OffsetsIncrease(r: seq<Instruction>, i: nat, j: nat)
    requires i < j < |r|
    requires forall k :: 0 <= k < |r| - 1 ==> r[k + 1].offset == r[k].offset + 1 + PushValueSize(r[k].opcode)
    ensures r[i].offset < r[j].offset
    decreases j - i
  {
    if i + 1 < j {
      OffsetsIncrease(r, i + 1, j);
    }
  }

  lemma {:induction false} DisasmFromImmediates(code: seq<uint8>, pos: nat, offset: nat)
    ensures var r := DisasmFrom(code, pos, offset);
      && (forall i :: 0 <= i < |r| ==> ImmediateFits(r[i]))
      && (forall i :: 0 <= i < |r| - 1 && r[i].pushValue.Some? ==>
            |r[i].pushValue.value| == PushValueSize(r[i].opcode))
      && (WellFormedFrom(code, pos) ==> forall i :: 0 <= i < |r| && r[i].pushValue.Some? ==>
            |r[i].pushValue.value| == PushValueSize(r[i].opcode))
    decreases |code| - pos
  {
    if pos < |code| {
      var size := ImmediateSize(code[pos]);
      var next := Min(pos + 1 + size, |code|);
      FromBytePushValueSize(code[pos]);
      DisasmFromImmediates(code, next, offset + 1 + size);
      var r := DisasmFrom(code, pos, offset);
      assert r[1..] == DisasmFrom(code, next, offset + 1 + size);
      if next == |code| {
        assert r[1..] == [];
      }
    }
  }

  /**
   * The immediate is present exactly on a value push; it has the announced
   * length on every instruction but the last, and on the last too when the
   * code is well formed.
   */
  lemma DisassembleImmediates(code: seq<uint8>)
    ensures var r := Disassemble(code);
      && (forall i :: 0 <= i < |r| ==> ImmediateFits(r[i]))
      && (forall i :: 0 <= i < |r| - 1 && r[i].pushValue.Some? ==>
            |r[i].pushValue.value| == PushValueSize(r[i].opcode))
      && (WellFormed(code) ==> forall i :: 0 <= i < |r| && r[i].pushValue.Some? ==>
            |r[i].pushValue.value| == PushValueSize(r[i].opcode))
  {
    DisasmFromImmediates(code, 0, 0);
    assert Disassemble(code) == DisasmFrom(code, 0, 0);
  }

  /** Where an instruction came from: its opcode byte and the bytes after it. */
  predicate ReadFrom(code: seq<uint8>, ins: Instruction) {
    && ins.offset < |code|
    && FromByte(code[ins.offset]) == ins.opcode
    && (ins.pushValue.Some? ==>
          ins.pushValue.value == code[ins.offset + 1..Min(ins.offset + 1 + PushValueSize(ins.opcode), |code|)])
  }

  lemma {:induction false} DisasmFromPositions(code: seq<uint8>, pos: nat)
    ensures forall ins :: ins in DisasmFrom(code, pos, pos) ==> ReadFrom(code, ins)
    decreases |code| - pos
  {
    if pos < |code| {
      var size := ImmediateSize(code[pos]);
      var next := Min(pos + 1 + size, |code|);
      if next == pos + 1 + size {
        DisasmFromPositions(code, next);
      }
    }
  }

  /**
   * Every instruction sits at its logical offset in the code: the byte there
   * decodes to its opcode and its immediate is the bytes that follow, cut at
   * the end of the code.
   */
  lemma DisassemblePositions(code: seq<uint8>)
    ensures forall ins :: ins in Disassemble(code) ==> ReadFrom(code, ins)
  {
    DisasmFromPositions(code, 0);
  }

  /** The number of code bytes an instruction was read from. */
  function Width(ins: Instruction): nat {
    1 + match ins.pushValue case Some(v) => |v| case None => 0
  }

  function Last(r: seq<Instruction>): Instruction
    requires r != []
  {
    r[|r| - 1]
  }

  lemma {:induction false} DisasmFromCoverage(code: seq<uint8>, pos: nat)
    requires pos <= |code|
    ensures var r := DisasmFrom(code, pos, pos);
      && (r == [] <==> pos == |code|)
      && (r != [] ==> Last(r).offset + Width(Last(r)) == |code|)
      && (r != [] && WellFormedFrom(code, pos) ==> Last(r).offset + 1 + PushValueSize(Last(r).opcode) == |code|)
    decreases |code| - pos
  {
    if pos < |code| {
      var size := ImmediateSize(code[pos]);
      var next := Min(pos + 1 + size, |code|);
      FromBytePushValueSize(code[pos]);
      var r := DisasmFrom(code, pos, pos);
      var rest := DisasmFrom(code, next, pos + 1 + size);
      assert r == [r[0]] + rest;
      if next == pos + 1 + size {
        DisasmFromCoverage(code, next);
        if rest != [] {
          assert Last(r) == Last(rest);
        }
      } else {
        assert rest == [];
        assert Width(r[0]) == 1 + (next - (pos + 1));
      }
    }
  }

  /**
   * The walk ends exactly at the end of the code: the last instruction's
   * bytes reach it, and with well-formed code so does its announced
   * immediate.  Only empty code gives no instructions.
   */
  lemma DisassembleCoverage(code: seq<uint8>)
    ensures var r := Disassemble(code);
      && (r == [] <==> code == [])
      && (r != [] ==> Last(r).offset + Width(Last(r)) == |code|)
      && (r != [] && WellFormed(code) ==> Last(r).offset + 1 + PushValueSize(Last(r).opcode) == |code|)
  {
    DisasmFromCoverage(code, 0);
  }

  /** The bytes one instruction stands for: its opcode's byte followed by its immediate. */
  function InstructionBytes(ins: Instruction): seq<uint8> {
    [ToByte(ins.opcode)] + match ins.pushValue case Some(v) => v case None => []
  }

  /** The bytes an instruction list stands for. */
  function Reassemble(r: seq<Instruction>): seq<uint8> {
    if r == [] then [] else InstructionBytes(r[0]) + Reassemble(r[1..])
  }

  /** Every byte the walk reads as an opcode, from position pos onward, has a decoding arm. */
  predicate OpcodeBytesDefined(code: seq<uint8>, pos: nat)
    decreases |code| - pos
  {
    pos >= |code|
    || (Defined(code[pos]) && OpcodeBytesDefined(code, Min(pos + 1 + ImmediateSize(code[pos]), |code|)))
  }

  lemma {:induction false} ReassembleSnoc(r: seq<Instruction>, ins: Instruction)
    ensures Reassemble(r + [ins]) == Reassemble(r) + InstructionBytes(ins)
  {
    if r == [] {
      assert r + [ins] == [ins];
      assert [ins][1..] == [];
    } else {
      assert (r + [ins])[1..] == r[1..] + [ins];
      ReassembleSnoc(r[1..], ins);
    }
  }

  lemma {:induction false} ReassembleAfterLength(code: seq<uint8>, pos: nat, offset: nat, done: seq<Instruction>)
    requires pos <= |code| && |Reassemble(done)| == pos
    ensures |Reassemble(DisasmAfter(code, pos, offset, done))| == |code|
    decreases |code| - pos
  {
    if pos < |code| {
      var size := ImmediateSize(code[pos]);
      var next := Min(pos + 1 + size, |code|);
      var ins := StepAt(code, pos, offset);
      ReassembleSnoc(done, ins);
      ReassembleAfterLength(code, next, offset + 1 + size, done + [ins]);
    }
  }

  lemma ReassembleExtend(code: seq<uint8>, pos: nat, offset: nat, done: seq<Instruction>)
    requires pos < |code| && Defined(code[pos]) && Reassemble(done) == code[..pos]
    ensures Reassemble(done + [StepAt(code, pos, offset)]) == code[..Min(pos + 1 + ImmediateSize(code[pos]), |code|)]
  {
    var next := Min(pos + 1 + ImmediateSize(code[pos]), |code|);
    ReassembleSnoc(done, StepAt(code, pos, offset));
    ToByteOfFromByte(code[pos]);
    assert InstructionBytes(StepAt(code, pos, offset)) == code[pos..next];
    assert code[..next] == code[..pos] + code[pos..next];
  }

  lemma {:induction false} ReassembleAfter(code: seq<uint8>, pos: nat, offset: nat, done: seq<Instruction>)
    requires pos <= |code| && OpcodeBytesDefined(code, pos) && Reassemble(done) == code[..pos]
    ensures Reassemble(DisasmAfter(code, pos, offset, done)) == code
    decreases |code| - pos
  {
    if pos < |code| {
      var size := ImmediateSize(code[pos]);
      var next := Min(pos + 1 + size, |code|);
      ReassembleExtend(code, pos, offset, done);
      assert DisasmAfter(code, pos, offset, done) == DisasmAfter(code, next, offset + 1 + size, done + [StepAt(code, pos, offset)]);
      ReassembleAfter(code, next, offset + 1 + size, done + [StepAt(code, pos, offset)]);
    } else {
      assert code[..pos] == code;
    }
  }

  /**
   * No byte is skipped or read twice: the opcode bytes and immediates of the
   * result have the length of the code, and they are the code itself when
   * every opcode byte has a decoding arm.
   */
  lemma ReassembleDisassemble(code: seq<uint8>)
    ensures |Reassemble(Disassemble(code))| == |code|
    ensures OpcodeBytesDefined(code, 0) ==> Reassemble(Disassemble(code)) == code
  {
    DisasmAfterIsDisasmFrom(code, 0, 0, []);
    assert [] + Disassemble(code) == Disassemble(code);
    ReassembleAfterLength(code, 0, 0, []);
    if OpcodeBytesDefined(code, 0) {
      ReassembleAfter(code, 0, 0, []);
    }
  }

  /** A PUSH0 byte is not reassembled: it decodes to Invalid, which encodes as 0xfe. */
  lemma Push0NotReassembled()
    ensures Disassemble([0x5f]) == [Instruction(System(Invalid), 0, None)]
    ensures Reassemble(Disassemble([0x5f])) == [0xfe]
  {
    assert DisasmFrom([0x5f], 1, 1) == [];
  }

  /**
   * A PUSH4 byte with fewer than four bytes after it: the loop as written
   * would slice past the end, the total loop keeps the bytes that remain.
   */
  lemma TruncatedPush()
    ensures !WellFormed([0x63])
    ensures !WellFormed([0x63, 0x01, 0x02])
    ensures Disassemble([0x63]) == [Instruction(Push(4), 0, Some([]))]
    ensures Disassemble([0x63, 0x01, 0x02]) == [Instruction(Push(4), 0, Some([0x01, 0x02]))]
  {
    assert FromByte(0x63) == Push(4);
    assert [0x63][1..1] == [];
    assert DisasmFrom([0x63], 1, 5) == [];
    assert [0x63, 0x01, 0x02][1..3] == [0x01, 0x02];
    assert DisasmFrom([0x63, 0x01, 0x02], 3, 5) == [];
  }

  // The hex front end.

  predicate HasHexPrefix(s: string) {
    |s| >= 2 && s[0] == '0' && s[1] == 'x'
  }

  /** Drops one leading "0x". */
  function StripHexPrefix(s: string): string {
    if HasHexPrefix(s) then s[2..] else s
  }

  /**
   * Disassembles hex text, with or without a leading "0x", by decoding it to
   * bytes first; None when the text is not whole bytes of hex digits.
   */
  function DisasmHex(s: string): Option<seq<Instruction>> {
    match HexToBytes(StripHexPrefix(s))
    case Some(code) => Some(Disassemble(code))
    case None => None
  }

  /** Empty text and a bare "0x" give no instructions. */
  lemma DisasmHexEmpty()
    ensures DisasmHex("") == Some([])
    ensures DisasmHex("0x") == Some([])
  {
    assert !HasHexPrefix("");
  }

  /** Exactly one prefix is dropped: "0x" + s reads like s when s has no prefix of its own. */
  lemma DisasmHexPrefix(s: string)
    requires !HasHexPrefix(s)
    ensures DisasmHex("0x" + s) == DisasmHex(s)
    ensures StripHexPrefix("0x" + s) == s
  {
    assert ("0x" + s)[2..] == s;
  }

  /** A second prefix is not dropped: its 'x' is not a hex digit. */
  lemma DisasmHexDoublePrefix(s: string)
    ensures DisasmHex("0x0x" + s) == None
  {
    assert StripHexPrefix("0x0x" + s) == "0x" + s;
    assert ("0x" + s)[1] == 'x';
  }

  /**
   * Text of whole hex bytes whose last push runs past the end still gives a
   * list: the hex front end reads it with the total loop, which cuts the
   * immediate to the bytes that remain.
   */
  lemma DisasmHexTruncatedPush()
    ensures DisasmHex("63") == Some([Instruction(Push(4), 0, Some([]))])
    ensures DisasmHex("0x63") == Some([Instruction(Push(4), 0, Some([]))])
    ensures !WellFormed([0x63])
  {
    var s: string := "63";
    var one: seq<uint8> := [0x63];
    assert s[2..] == [] && one + [] == one;
    assert HexToBytes(s) == Some(one);
    TruncatedPush();
    DisasmHexPrefix("63");
  }

  /** The encoding of some code, with or without the prefix, disassembles like the code itself. */
  lemma DisasmHexOfBytesToHex(code: seq<uint8>)
    ensures DisasmHex(BytesToHex(code)) == Some(Disassemble(code))
    ensures DisasmHex("0x" + BytesToHex(code)) == Some(Disassemble(code))
  {
    var s := BytesToHex(code);
    HexToBytesOfBytesToHex(code);
    if |s| >= 2 {
      assert IsLowerHexChar(s[1]);
    }
    DisasmHexPrefix(s);
  }

  // Reading the display text back.

  /** Splits text at its first space: the part before, and the part after if there is a space. */
  function SplitAtSpace(s: string): (string, Option<string>) {
    if s == [] then ("", None)
    else if s[0] == ' ' then ("", Some(s[1..]))
    else var (a, b) := SplitAtSpace(s[1..]); ([s[0]] + a, b)
  }

  lemma {:induction false} SplitAtSpaceAfter(m: string, t: Option<string>)
    requires ' ' !in m
    ensures SplitAtSpace(match t case Some(u) => m + " " + u case None => m) == (m, t)
  {
    var s := match t case Some(u) => m + " " + u case None => m;
    if m == [] {
      if t.Some? {
        assert s == " " + t.value;
        assert s[1..] == t.value;
      }
    } else {
      SplitAtSpaceAfter(m[1..], t);
      var s' := match t case Some(u) => m[1..] + " " + u case None => m[1..];
      assert s[0] == m[0] && s[1..] == s';
      assert [m[0]] + m[1..] == m;
    }
  }

  /** Reads a display line back into an opcode and an immediate. */
  function ReadDisplay(s: string): Option<(Opcode, Option<seq<uint8>>)> {
    var (m, t) := SplitAtSpace(s);
    match (OpcodeNamed(m), t)
    case (Some(op), None) => Some((op, None))
    case (Some(op), Some(h)) => (
      match HexToBytes(h)
      case Some(v) => Some((op, Some(v)))
      case None => None)
    case _ => None
  }

  /** The display text determines the opcode and the immediate. */
  lemma ReadDisplayOfDisplay(ins: Instruction)
    ensures ReadDisplay(Display(ins)) == Some((ins.opcode, ins.pushValue))
  {
    OpStringHasNoSpace(ins.opcode);
    OpcodeNamedOfOpString(ins.opcode);
    match ins.pushValue
    case Some(v) =>
      SplitAtSpaceAfter(OpString(ins.opcode), Some(BytesToHex(v)));
      HexToBytesOfBytesToHex(v);
    case None =>
      SplitAtSpaceAfter(OpString(ins.opcode), None);
  }

  /** Instructions with the same display text have the same opcode and immediate. */
  lemma DisplayInjective(a: Instruction, b: Instruction)
    requires Display(a) == Display(b)
    ensures a.opcode == b.opcode && a.pushValue == b.pushValue
  {
    ReadDisplayOfDisplay(a);
    ReadDisplayOfDisplay(b);
  }
}
