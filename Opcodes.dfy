/**
 * The EVM opcode table: the closed set of instruction identities, the
 * byte-to-opcode decoder, the opcode-to-byte encoder, the push metadata and
 * the mnemonic of each opcode.  The instruction set is that of Appendix H.2
 * of the Ethereum Yellow Paper, with PUSH0 (EIP-3855) and PREVRANDAO
 * (EIP-4399, which reuses the byte 0x44 of DIFFICULTY).
 *
 * The 145 identities are grouped by the sections of that appendix: the
 * families PUSHn, DUPn, SWAPn and LOGn carry their index, the other opcodes
 * sit in one enumeration per section.  The decoder and the encoder give the
 * other opcodes one arm each and compute the family members from the byte
 * (PUSHn is 0x5f + n, DUPn 0x7f + n, SWAPn 0x8f + n, LOGn 0xa0 + n).
 */
module Opcodes {

  import opened Utils

  /** Operand width of PUSH0 ... PUSH32. */
  type PushWidth = n: nat | n <= 32
  /** Stack position of DUP1 ... DUP16 and SWAP1 ... SWAP16. */
  type StackIndex = n: nat | 1 <= n <= 16 witness 1
  /** Topic count of LOG0 ... LOG4. */
  type TopicCount = n: nat | n <= 4

  /** 0x00 ... 0x0b: stop and arithmetic. */
  datatype StopArithOp
    = Stop | Add | Mul | Sub | Div | Sdiv | Mod | Smod | Addmod | Mulmod | Exp | Signextend

  /** 0x10 ... 0x1d: comparison and bitwise logic. */
  datatype CompareBitwiseOp
    = Lt | Gt | Slt | Sgt | Eq | Iszero | And | Or | Xor | Not | Byte | Shl | Shr | Sar

  /** 0x30 ... 0x3f: environmental information. */
  datatype EnvironmentOp
    = Address | Balance | Origin | Caller | Callvalue | Calldataload | Calldatasize
    | Calldatacopy | Codesize | Codecopy | Gasprice | Extcodesize | Extcodecopy
    | Returndatasize | Returndatacopy | Extcodehash

  /** 0x40 ... 0x48: block information. */
  datatype BlockOp
    = Blockhash | Coinbase | Timestamp | Number | Difficulty | Prevrandao | Gaslimit | Chainid
    | Selfbalance | Basefee

  /** 0x50 ... 0x5b: stack, memory, storage and flow. */
  datatype StackMemoryFlowOp
    = Pop | Mload | Mstore | Mstore8 | Sload | Sstore | Jump | Jumpi | Pc | Msize | Gas
    | Jumpdest

  /** 0xf0 ... 0xff: system operations (and the designated Invalid). */
  datatype SystemOp
    = Create | Call | Callcode | Return | Delegatecall | Create2 | Staticcall | Revert
    | Invalid | Selfdestruct

  /** An instruction identity: one of the 145 variants of the opcode enumeration. */
  datatype Opcode
    = StopArith(sa: StopArithOp)
    | CompareBitwise(cb: CompareBitwiseOp)
    | Sha3
    | Environment(env: EnvironmentOp)
    | Block(blk: BlockOp)
    | StackMemoryFlow(smf: StackMemoryFlowOp)
    | Push(width: PushWidth)
    | Dup(dupIndex: StackIndex)
    | Swap(swapIndex: StackIndex)
    | Log(topics: TopicCount)
    | System(sys: SystemOp)

  /**
   * Decodes one byte (`from_byte`).  Total: a byte without an arm decodes to
   * Invalid.  There is no arm for 0x5f, so PUSH0 decodes to Invalid, and 0x44
   * decodes to Prevrandao only.  The arms are grouped by the high nibble of
   * the byte; the families PUSH1 ... PUSH32, DUP1 ... DUP16, SWAP1 ... SWAP16
   * and LOG0 ... LOG4 take their index from the byte, and the bytes 0xa5 ...
   * 0xef fall through to Invalid.
   */
  function FromByte(b: uint8): Opcode {
    if 0x60 <= b < 0x80 then Push(b - 0x5f)
    else FromNonPushByte(b)
  }

  /** Decodes a byte outside the PUSH1 ... PUSH32 range; never a push. */
  function FromNonPushByte(b: uint8): (op: Opcode)
    requires b < 0x60 || 0x80 <= b
    ensures !op.Push?
  {
    if b < 0x10 then FromByte0x(b)
    else if b < 0x20 then FromByte1x(b)
    else if b < 0x30 then FromByte2x(b)
    else if b < 0x40 then FromByte3x(b)
    else if b < 0x50 then FromByte4x(b)
    else if b < 0x60 then FromByte5x(b)
    else if b < 0x90 then Dup(b - 0x7f)
    else if b < 0xa0 then Swap(b - 0x8f)
    else if b < 0xa5 then Log(b - 0xa0)
    else if b < 0xf0 then System(Invalid)
    else FromByteFx(b)
  }

  function FromByte0x(b: uint8): (op: Opcode)
    ensures !op.Push?
  {
    match b
    case 0x00 => StopArith(Stop)
    case 0x01 => StopArith(Add)
    case 0x02 => StopArith(Mul)
    case 0x03 => StopArith(Sub)
    case 0x04 => StopArith(Div)
    case 0x05 => StopArith(Sdiv)
    case 0x06 => StopArith(Mod)
    case 0x07 => StopArith(Smod)
    case 0x08 => StopArith(Addmod)
    case 0x09 => StopArith(Mulmod)
    case 0x0a => StopArith(Exp)
    case 0x0b => StopArith(Signextend)
    case _ => System(Invalid)
  }

  function FromByte1x(b: uint8): (op: Opcode)
    ensures !op.Push?
  {
    match b
    case 0x10 => CompareBitwise(Lt)
    case 0x11 => CompareBitwise(Gt)
    case 0x12 => CompareBitwise(Slt)
    case 0x13 => CompareBitwise(Sgt)
    case 0x14 => CompareBitwise(Eq)
    case 0x15 => CompareBitwise(Iszero)
    case 0x16 => CompareBitwise(And)
    case 0x17 => CompareBitwise(Or)
    case 0x18 => CompareBitwise(Xor)
    case 0x19 => CompareBitwise(Not)
    case 0x1a => CompareBitwise(Byte)
    case 0x1b => CompareBitwise(Shl)
    case 0x1c => CompareBitwise(Shr)
    case 0x1d => CompareBitwise(Sar)
    case _ => System(Invalid)
  }

  function FromByte2x(b: uint8): (op: Opcode)
    ensures !op.Push?
  {
    match b
    case 0x20 => Sha3
    case _ => System(Invalid)
  }

  function FromByte3x(b: uint8): (op: Opcode)
    ensures !op.Push?
  {
    match b
    case 0x30 => Environment(Address)
    case 0x31 => Environment(Balance)
    case 0x32 => Environment(Origin)
    case 0x33 => Environment(Caller)
    case 0x34 => Environment(Callvalue)
    case 0x35 => Environment(Calldataload)
    case 0x36 => Environment(Calldatasize)
    case 0x37 => Environment(Calldatacopy)
    case 0x38 => Environment(Codesize)
    case 0x39 => Environment(Codecopy)
    case 0x3a => Environment(Gasprice)
    case 0x3b => Environment(Extcodesize)
    case 0x3c => Environment(Extcodecopy)
    case 0x3d => Environment(Returndatasize)
    case 0x3e => Environment(Returndatacopy)
    case 0x3f => Environment(Extcodehash)
    case _ => System(Invalid)
  }

  function FromByte4x(b: uint8): (op: Opcode)
    ensures !op.Push?
  {
    match b
    case 0x40 => Block(Blockhash)
    case 0x41 => Block(Coinbase)
    case 0x42 => Block(Timestamp)
    case 0x43 => Block(Number)
    case 0x44 => Block(Prevrandao)
    case 0x45 => Block(Gaslimit)
    case 0x46 => Block(Chainid)
    case 0x47 => Block(Selfbalance)
    case 0x48 => Block(Basefee)
    case _ => System(Invalid)
  }

  function FromByte5x(b: uint8): (op: Opcode)
    ensures !op.Push?
  {
    match b
    case 0x50 => StackMemoryFlow(Pop)
    case 0x51 => StackMemoryFlow(Mload)
    case 0x52 => StackMemoryFlow(Mstore)
    case 0x53 => StackMemoryFlow(Mstore8)
    case 0x54 => StackMemoryFlow(Sload)
    case 0x55 => StackMemoryFlow(Sstore)
    case 0x56 => StackMemoryFlow(Jump)
    case 0x57 => StackMemoryFlow(Jumpi)
    case 0x58 => StackMemoryFlow(Pc)
    case 0x59 => StackMemoryFlow(Msize)
    case 0x5a => StackMemoryFlow(Gas)
    case 0x5b => StackMemoryFlow(Jumpdest)
    case _ => System(Invalid)
  }

  function FromByteFx(b: uint8): (op: Opcode)
    ensures !op.Push?
  {
    match b
    case 0xf0 => System(Create)
    case 0xf1 => System(Call)
    case 0xf2 => System(Callcode)
    case 0xf3 => System(Return)
    case 0xf4 => System(Delegatecall)
    case 0xf5 => System(Create2)
    case 0xfa => System(Staticcall)
    case 0xfd => System(Revert)
    case 0xfe => System(Invalid)
    case 0xff => System(Selfdestruct)
    case _ => System(Invalid)
  }

  /** True for the pushes that carry an immediate operand, PUSH1 ... PUSH32 (`is_value_push`). */
  predicate IsValuePush(op: Opcode) {
    match op
    case Push(n) => n >= 1
    case _ => false
  }

  /** The number of immediate bytes that follow the opcode in the code (`push_value_size`). */
  function PushValueSize(op: Opcode): nat {
    match op
    case Push(n) => n
    case _ => 0
  }

  /**
   * Encodes an opcode (`byte`).  Difficulty and Prevrandao share the byte
   * 0x44; PUSHn is 0x5f + n, DUPn 0x7f + n, SWAPn 0x8f + n and LOGn 0xa0 + n.
   */
  function ToByte(op: Opcode): uint8 {
    match op
    case StopArith(Stop) => 0x00
    case StopArith(Add) => 0x01
    case StopArith(Mul) => 0x02
    case StopArith(Sub) => 0x03
    case StopArith(Div) => 0x04
    case StopArith(Sdiv) => 0x05
    case StopArith(Mod) => 0x06
    case StopArith(Smod) => 0x07
    case StopArith(Addmod) => 0x08
    case StopArith(Mulmod) => 0x09
    case StopArith(Exp) => 0x0a
    case StopArith(Signextend) => 0x0b
    case CompareBitwise(Lt) => 0x10
    case CompareBitwise(Gt) => 0x11
    case CompareBitwise(Slt) => 0x12
    case CompareBitwise(Sgt) => 0x13
    case CompareBitwise(Eq) => 0x14
    case CompareBitwise(Iszero) => 0x15
    case CompareBitwise(And) => 0x16
    case CompareBitwise(Or) => 0x17
    case CompareBitwise(Xor) => 0x18
    case CompareBitwise(Not) => 0x19
    case CompareBitwise(Byte) => 0x1a
    case CompareBitwise(Shl) => 0x1b
    case CompareBitwise(Shr) => 0x1c
    case CompareBitwise(Sar) => 0x1d
    case Sha3 => 0x20
    case Environment(Address) => 0x30
    case Environment(Balance) => 0x31
    case Environment(Origin) => 0x32
    case Environment(Caller) => 0x33
    case Environment(Callvalue) => 0x34
    case Environment(Calldataload) => 0x35
    case Environment(Calldatasize) => 0x36
    case Environment(Calldatacopy) => 0x37
    case Environment(Codesize) => 0x38
    case Environment(Codecopy) => 0x39
    case Environment(Gasprice) => 0x3a
    case Environment(Extcodesize) => 0x3b
    case Environment(Extcodecopy) => 0x3c
    case Environment(Returndatasize) => 0x3d
    case Environment(Returndatacopy) => 0x3e
    case Environment(Extcodehash) => 0x3f
    case Block(Blockhash) => 0x40
    case Block(Coinbase) => 0x41
    case Block(Timestamp) => 0x42
    case Block(Number) => 0x43
    case Block(Difficulty) => 0x44
    case Block(Prevrandao) => 0x44
    case Block(Gaslimit) => 0x45
    case Block(Chainid) => 0x46
    case Block(Selfbalance) => 0x47
    case Block(Basefee) => 0x48
    case StackMemoryFlow(Pop) => 0x50
    case StackMemoryFlow(Mload) => 0x51
    case StackMemoryFlow(Mstore) => 0x52
    case StackMemoryFlow(Mstore8) => 0x53
    case StackMemoryFlow(Sload) => 0x54
    case StackMemoryFlow(Sstore) => 0x55
    case StackMemoryFlow(Jump) => 0x56
    case StackMemoryFlow(Jumpi) => 0x57
    case StackMemoryFlow(Pc) => 0x58
    case StackMemoryFlow(Msize) => 0x59
    case StackMemoryFlow(Gas) => 0x5a
    case StackMemoryFlow(Jumpdest) => 0x5b
    case System(Create) => 0xf0
    case System(Call) => 0xf1
    case System(Callcode) => 0xf2
    case System(Return) => 0xf3
    case System(Delegatecall) => 0xf4
    case System(Create2) => 0xf5
    case System(Staticcall) => 0xfa
    case System(Revert) => 0xfd
    case System(Invalid) => 0xfe
    case System(Selfdestruct) => 0xff
    case Push(n) => 0x5f + n
    case Dup(n) => 0x7f + n
    case Swap(n) => 0x8f + n
    case Log(n) => 0xa0 + n
  }

  /** The mnemonic of an opcode (`op_string`). */
  function OpString(op: Opcode): string {
    match op
    case StopArith(Stop) => "Stop"
    case StopArith(Add) => "Add"
    case StopArith(Mul) => "Mul"
    case StopArith(Sub) => "Sub"
    case StopArith(Div) => "Div"
    case StopArith(Sdiv) => "Sdiv"
    case StopArith(Mod) => "Mod"
    case StopArith(Smod) => "Smod"
    case StopArith(Addmod) => "Addmod"
    case StopArith(Mulmod) => "Mulmod"
    case StopArith(Exp) => "Exp"
    case StopArith(Signextend) => "Signextend"
    case CompareBitwise(Lt) => "Lt"
    case CompareBitwise(Gt) => "Gt"
    case CompareBitwise(Slt) => "Slt"
    case CompareBitwise(Sgt) => "Sgt"
    case CompareBitwise(Eq) => "Eq"
    case CompareBitwise(Iszero) => "Iszero"
    case CompareBitwise(And) => "And"
    case CompareBitwise(Or) => "Or"
    case CompareBitwise(Xor) => "Xor"
    case CompareBitwise(Not) => "Not"
    case CompareBitwise(Byte) => "Byte"
    case CompareBitwise(Shl) => "Shl"
    case CompareBitwise(Shr) => "Shr"
    case CompareBitwise(Sar) => "Sar"
    case Sha3 => "Sha3"
    case Environment(Address) => "Address"
    case Environment(Balance) => "Balance"
    case Environment(Origin) => "Origin"
    case Environment(Caller) => "Caller"
    case Environment(Callvalue) => "Callvalue"
    case Environment(Calldataload) => "Calldataload"
    case Environment(Calldatasize) => "Calldatasize"
    case Environment(Calldatacopy) => "Calldatacopy"
    case Environment(Codesize) => "Codesize"
    case Environment(Codecopy) => "Codecopy"
    case Environment(Gasprice) => "Gasprice"
    case Environment(Extcodesize) => "Extcodesize"
    case Environment(Extcodecopy) => "Extcodecopy"
    case Environment(Returndatasize) => "Returndatasize"
    case Environment(Returndatacopy) => "Returndatacopy"
    case Environment(Extcodehash) => "Extcodehash"
    case Block(Blockhash) => "Blockhash"
    case Block(Coinbase) => "Coinbase"
    case Block(Timestamp) => "Timestamp"
    case Block(Number) => "Number"
    case Block(Difficulty) => "Difficulty"
    case Block(Prevrandao) => "Prevrandao"
    case Block(Gaslimit) => "Gaslimit"
    case Block(Chainid) => "Chainid"
    case Block(Selfbalance) => "Selfbalance"
    case Block(Basefee) => "Basefee"
    case StackMemoryFlow(Pop) => "Pop"
    case StackMemoryFlow(Mload) => "Mload"
    case StackMemoryFlow(Mstore) => "Mstore"
    case StackMemoryFlow(Mstore8) => "Mstore8"
    case StackMemoryFlow(Sload) => "Sload"
    case StackMemoryFlow(Sstore) => "Sstore"
    case StackMemoryFlow(Jump) => "Jump"
    case StackMemoryFlow(Jumpi) => "Jumpi"
    case StackMemoryFlow(Pc) => "Pc"
    case StackMemoryFlow(Msize) => "Msize"
    case StackMemoryFlow(Gas) => "Gas"
    case StackMemoryFlow(Jumpdest) => "Jumpdest"
    case Push(0) => "Push0"
    case Push(1) => "Push1"
    case Push(2) => "Push2"
    case Push(3) => "Push3"
    case Push(4) => "Push4"
    case Push(5) => "Push5"
    case Push(6) => "Push6"
    case Push(7) => "Push7"
    case Push(8) => "Push8"
    case Push(9) => "Push9"
    case Push(10) => "Push10"
    case Push(11) => "Push11"
    case Push(12) => "Push12"
    case Push(13) => "Push13"
    case Push(14) => "Push14"
    case Push(15) => "Push15"
    case Push(16) => "Push16"
    case Push(17) => "Push17"
    case Push(18) => "Push18"
    case Push(19) => "Push19"
    case Push(20) => "Push20"
    case Push(21) => "Push21"
    case Push(22) => "Push22"
    case Push(23) => "Push23"
    case Push(24) => "Push24"
    case Push(25) => "Push25"
    case Push(26) => "Push26"
    case Push(27) => "Push27"
    case Push(28) => "Push28"
    case Push(29) => "Push29"
    case Push(30) => "Push30"
    case Push(31) => "Push31"
    case Push(32) => "Push32"
    case Dup(1) => "Dup1"
    case Dup(2) => "Dup2"
    case Dup(3) => "Dup3"
    case Dup(4) => "Dup4"
    case Dup(5) => "Dup5"
    case Dup(6) => "Dup6"
    case Dup(7) => "Dup7"
    case Dup(8) => "Dup8"
    case Dup(9) => "Dup9"
    case Dup(10) => "Dup10"
    case Dup(11) => "Dup11"
    case Dup(12) => "Dup12"
    case Dup(13) => "Dup13"
    case Dup(14) => "Dup14"
    case Dup(15) => "Dup15"
    case Dup(16) => "Dup16"
    case Swap(1) => "Swap1"
    case Swap(2) => "Swap2"
    case Swap(3) => "Swap3"
    case Swap(4) => "Swap4"
    case Swap(5) => "Swap5"
    case Swap(6) => "Swap6"
    case Swap(7) => "Swap7"
    case Swap(8) => "Swap8"
    case Swap(9) => "Swap9"
    case Swap(10) => "Swap10"
    case Swap(11) => "Swap11"
    case Swap(12) => "Swap12"
    case Swap(13) => "Swap13"
    case Swap(14) => "Swap14"
    case Swap(15) => "Swap15"
    case Swap(16) => "Swap16"
    case Log(0) => "Log0"
    case Log(1) => "Log1"
    case Log(2) => "Log2"
    case Log(3) => "Log3"
    case Log(4) => "Log4"
    case System(Create) => "Create"
    case System(Call) => "Call"
    case System(Callcode) => "Callcode"
    case System(Return) => "Return"
    case System(Delegatecall) => "Delegatecall"
    case System(Create2) => "Create2"
    case System(Staticcall) => "Staticcall"
    case System(Revert) => "Revert"
    case System(Invalid) => "Invalid"
    case System(Selfdestruct) => "Selfdestruct"
  }

  /** The bytes that have an explicit decoding arm: the assigned ranges of the instruction set. */
  predicate Defined(b: uint8) {
    || b <= 0x0b
    || 0x10 <= b <= 0x1d
    || b == 0x20
    || 0x30 <= b <= 0x48
    || 0x50 <= b <= 0x5b
    || 0x60 <= b <= 0xa4
    || 0xf0 <= b <= 0xf5
    || b == 0xfa
    || 0xfd <= b
  }

  /** What the decoder promises about one byte. */
  predicate ByteFacts(b: uint8) {
    var op := FromByte(b);
    && (op == System(Invalid) <==> !Defined(b) || b == 0xfe)
    && (Defined(b) ==> ToByte(op) == b)
    && op != Push(0) && op != Block(Difficulty)
    && PushValueSize(op) == (if 0x60 <= b <= 0x7f then b - 0x5f else 0)
  }

  // The decoder table is checked one block of bytes at a time.

  lemma ByteFactsFrom00(b: uint8)
    requires 0x00 <= b < 0x20
    ensures ByteFacts(b)
  {
  }

  lemma ByteFactsFrom20(b: uint8)
    requires 0x20 <= b < 0x40
    ensures ByteFacts(b)
  {
  }

  lemma ByteFactsFrom40(b: uint8)
    requires 0x40 <= b < 0x60
    ensures ByteFacts(b)
  {
  }

  lemma ByteFactsFrom60(b: uint8)
    requires 0x60 <= b < 0x70
    ensures ByteFacts(b)
  {
  }

  lemma ByteFactsFrom70(b: uint8)
    requires 0x70 <= b < 0x80
    ensures ByteFacts(b)
  {
  }

  lemma ByteFactsFrom80(b: uint8)
    requires 0x80 <= b < 0x90
    ensures ByteFacts(b)
  {
  }

  lemma ByteFactsFrom90(b: uint8)
    requires 0x90 <= b < 0xa0
    ensures ByteFacts(b)
  {
  }

  lemma ByteFactsFromA0(b: uint8)
    requires 0xa0 <= b < 0xc0
    ensures ByteFacts(b)
  {
  }

  lemma ByteFactsFromC0(b: uint8)
    requires 0xc0 <= b < 0xf0
    ensures ByteFacts(b)
  {
  }

  lemma ByteFactsFromF0(b: uint8)
    requires 0xf0 <= b < 0x100
    ensures ByteFacts(b)
  {
  }

  lemma ByteFactsHold(b: uint8)
    ensures ByteFacts(b)
  {
    if b < 0x20 {
      ByteFactsFrom00(b);
    } else if b < 0x40 {
      ByteFactsFrom20(b);
    } else if b < 0x60 {
      ByteFactsFrom40(b);
    } else if b < 0x70 {
      ByteFactsFrom60(b);
    } else if b < 0x80 {
      ByteFactsFrom70(b);
    } else if b < 0x90 {
      ByteFactsFrom80(b);
    } else if b < 0xa0 {
      ByteFactsFrom90(b);
    } else if b < 0xc0 {
      ByteFactsFromA0(b);
    } else if b < 0xf0 {
      ByteFactsFromC0(b);
    } else {
      ByteFactsFromF0(b);
    }
  }

  /** Decoding is total: exactly the bytes without an arm, and 0xfe itself, decode to Invalid. */
  lemma FromByteInvalidIff(b: uint8)
    ensures FromByte(b) == System(Invalid) <==> !Defined(b) || b == 0xfe
  {
    ByteFactsHold(b);
  }

  /** Every byte with an explicit arm is encoded back to itself. */
  lemma ToByteOfFromByte(b: uint8)
    requires Defined(b)
    ensures ToByte(FromByte(b)) == b
  {
    ByteFactsHold(b);
  }

  /** The decoder never produces PUSH0 or DIFFICULTY. */
  lemma FromByteNeverPush0OrDifficulty(b: uint8)
    ensures FromByte(b) != Push(0) && FromByte(b) != Block(Difficulty)
  {
    ByteFactsHold(b);
  }

  /** The number of immediate bytes an opcode byte announces, read off the byte itself. */
  function ImmediateSize(b: uint8): nat {
    if 0x60 <= b <= 0x7f then b - 0x5f else 0
  }

  /** The bytes 0x60 ... 0x7f announce 1 ... 32 immediate bytes; every other byte none. */
  lemma FromBytePushValueSize(b: uint8)
    ensures PushValueSize(FromByte(b)) == ImmediateSize(b)
    ensures IsValuePush(FromByte(b)) <==> ImmediateSize(b) > 0
  {
    ByteFactsHold(b);
    PushValueSizeFacts(FromByte(b));
  }

  /** The encoder followed by the decoder, for one opcode. */
  predicate RoundTrips(op: Opcode) {
    FromByte(ToByte(op)) == if op == Push(0) then System(Invalid)
                            else if op == Block(Difficulty) then Block(Prevrandao)
                            else op
  }

  // The encoder table is checked one section at a time.

  lemma RoundTripStopArith(op: Opcode)
    requires op.StopArith?
    ensures RoundTrips(op)
  {
  }

  lemma RoundTripCompareBitwise(op: Opcode)
    requires op.CompareBitwise?
    ensures RoundTrips(op)
  {
  }

  lemma RoundTripSha3(op: Opcode)
    requires op.Sha3?
    ensures RoundTrips(op)
  {
  }

  lemma RoundTripEnvironmentLow(op: Opcode)
    requires op.Environment? && op.env in {Address, Balance, Origin, Caller, Callvalue, Calldataload, Calldatasize, Calldatacopy}
    ensures RoundTrips(op)
  {
  }

  lemma RoundTripEnvironmentHigh(op: Opcode)
    requires op.Environment? && op.env !in {Address, Balance, Origin, Caller, Callvalue, Calldataload, Calldatasize, Calldatacopy}
    ensures RoundTrips(op)
  {
  }

  lemma RoundTripBlock(op: Opcode)
    requires op.Block?
    ensures RoundTrips(op)
  {
  }

  lemma RoundTripStackMemoryFlow(op: Opcode)
    requires op.StackMemoryFlow?
    ensures RoundTrips(op)
  {
  }

  lemma RoundTripPushLow(op: Opcode)
    requires op.Push? && op.width <= 16
    ensures RoundTrips(op)
  {
  }

  lemma RoundTripPushHigh(op: Opcode)
    requires op.Push? && op.width > 16
    ensures RoundTrips(op)
  {
  }

  lemma RoundTripDup(op: Opcode)
    requires op.Dup?
    ensures RoundTrips(op)
  {
  }

  lemma RoundTripSwapLow(op: Opcode)
    requires op.Swap? && op.swapIndex <= 8
    ensures RoundTrips(op)
  {
  }

  lemma RoundTripSwapHigh(op: Opcode)
    requires op.Swap? && op.swapIndex > 8
    ensures RoundTrips(op)
  {
  }

  lemma RoundTripLog(op: Opcode)
    requires op.Log?
    ensures RoundTrips(op)
  {
  }

  lemma RoundTripSystemLow(op: Opcode)
    requires op.System? && op.sys in {Create, Call, Callcode, Return, Delegatecall}
    ensures RoundTrips(op)
  {
  }

  lemma RoundTripSystemHigh(op: Opcode)
    requires op.System? && op.sys !in {Create, Call, Callcode, Return, Delegatecall}
    ensures RoundTrips(op)
  {
  }

  /**
   * Decoding an encoded opcode gives it back, except for PUSH0 (no decoder
   * arm, so Invalid) and DIFFICULTY (its byte decodes to PREVRANDAO).
   */
  lemma FromByteOfToByte(op: Opcode)
    ensures RoundTrips(op)
  {
    match op
    case StopArith(_) => RoundTripStopArith(op);
    case CompareBitwise(_) => RoundTripCompareBitwise(op);
    case Sha3 => RoundTripSha3(op);
    case Environment(x) =>
      if x in {Address, Balance, Origin, Caller, Callvalue, Calldataload, Calldatasize, Calldatacopy} { RoundTripEnvironmentLow(op); } else { RoundTripEnvironmentHigh(op); }
    case Block(_) => RoundTripBlock(op);
    case StackMemoryFlow(_) => RoundTripStackMemoryFlow(op);
    case Push(x) =>
      if x <= 16 { RoundTripPushLow(op); } else { RoundTripPushHigh(op); }
    case Dup(_) => RoundTripDup(op);
    case Swap(x) =>
      if x <= 8 { RoundTripSwapLow(op); } else { RoundTripSwapHigh(op); }
    case Log(_) => RoundTripLog(op);
    case System(x) =>
      if x in {Create, Call, Callcode, Return, Delegatecall} { RoundTripSystemLow(op); } else { RoundTripSystemHigh(op); }
  }

  /** Difficulty and Prevrandao share the byte 0x44, which decodes to Prevrandao. */
  lemma SharedByte0x44()
    ensures ToByte(Block(Difficulty)) == ToByte(Block(Prevrandao)) == 0x44
    ensures FromByte(0x44) == Block(Prevrandao)
  {
  }

  /** The push metadata: at most 32 immediate bytes, and a value push is one with at least one. */
  lemma PushValueSizeFacts(op: Opcode)
    ensures PushValueSize(op) <= 32
    ensures IsValuePush(op) <==> PushValueSize(op) >= 1
    ensures !IsValuePush(Push(0)) && PushValueSize(Push(0)) == 0
  {
  }

  /**
   * Reads a mnemonic back, keyed on its first letter: the left inverse of
   * OpString, used to show that no two opcodes share a mnemonic.
   */
  function OpcodeNamed(s: string): Option<Opcode> {
    if s == [] then None else
    match s[0]
    case 'A' => (
      match s
      case "Add" => Some(StopArith(Add))
      case "Addmod" => Some(StopArith(Addmod))
      case "And" => Some(CompareBitwise(And))
      case "Address" => Some(Environment(Address))
      case _ => None)
    case 'B' => (
      match s
      case "Byte" => Some(CompareBitwise(Byte))
      case "Balance" => Some(Environment(Balance))
      case "Blockhash" => Some(Block(Blockhash))
      case "Basefee" => Some(Block(Basefee))
      case _ => None)
    case 'C' => (
      match s
      case "Caller" => Some(Environment(Caller))
      case "Callvalue" => Some(Environment(Callvalue))
      case "Calldataload" => Some(Environment(Calldataload))
      case "Calldatasize" => Some(Environment(Calldatasize))
      case "Calldatacopy" => Some(Environment(Calldatacopy))
      case "Codesize" => Some(Environment(Codesize))
      case "Codecopy" => Some(Environment(Codecopy))
      case "Coinbase" => Some(Block(Coinbase))
      case "Chainid" => Some(Block(Chainid))
      case "Create" => Some(System(Create))
      case "Call" => Some(System(Call))
      case "Callcode" => Some(System(Callcode))
      case "Create2" => Some(System(Create2))
      case _ => None)
    case 'D' => (
      match s
      case "Div" => Some(StopArith(Div))
      case "Difficulty" => Some(Block(Difficulty))
      case "Dup1" => Some(Dup(1))
      case "Dup2" => Some(Dup(2))
      case "Dup3" => Some(Dup(3))
      case "Dup4" => Some(Dup(4))
      case "Dup5" => Some(Dup(5))
      case "Dup6" => Some(Dup(6))
      case "Dup7" => Some(Dup(7))
      case "Dup8" => Some(Dup(8))
      case "Dup9" => Some(Dup(9))
      case "Dup10" => Some(Dup(10))
      case "Dup11" => Some(Dup(11))
      case "Dup12" => Some(Dup(12))
      case "Dup13" => Some(Dup(13))
      case "Dup14" => Some(Dup(14))
      case "Dup15" => Some(Dup(15))
      case "Dup16" => Some(Dup(16))
      case "Delegatecall" => Some(System(Delegatecall))
      case _ => None)
    case 'E' => (
      match s
      case "Exp" => Some(StopArith(Exp))
      case "Eq" => Some(CompareBitwise(Eq))
      case "Extcodesize" => Some(Environment(Extcodesize))
      case "Extcodecopy" => Some(Environment(Extcodecopy))
      case "Extcodehash" => Some(Environment(Extcodehash))
      case _ => None)
    case 'G' => (
      match s
      case "Gt" => Some(CompareBitwise(Gt))
      case "Gasprice" => Some(Environment(Gasprice))
      case "Gaslimit" => Some(Block(Gaslimit))
      case "Gas" => Some(StackMemoryFlow(Gas))
      case _ => None)
    case 'I' => (
      match s
      case "Iszero" => Some(CompareBitwise(Iszero))
      case "Invalid" => Some(System(Invalid))
      case _ => None)
    case 'J' => (
      match s
      case "Jump" => Some(StackMemoryFlow(Jump))
      case "Jumpi" => Some(StackMemoryFlow(Jumpi))
      case "Jumpdest" => Some(StackMemoryFlow(Jumpdest))
      case _ => None)
    case 'L' => (
      match s
      case "Lt" => Some(CompareBitwise(Lt))
      case "Log0" => Some(Log(0))
      case "Log1" => Some(Log(1))
      case "Log2" => Some(Log(2))
      case "Log3" => Some(Log(3))
      case "Log4" => Some(Log(4))
      case _ => None)
    case 'M' => (
      match s
      case "Mul" => Some(StopArith(Mul))
      case "Mod" => Some(StopArith(Mod))
      case "Mulmod" => Some(StopArith(Mulmod))
      case "Mload" => Some(StackMemoryFlow(Mload))
      case "Mstore" => Some(StackMemoryFlow(Mstore))
      case "Mstore8" => Some(StackMemoryFlow(Mstore8))
      case "Msize" => Some(StackMemoryFlow(Msize))
      case _ => None)
    case 'N' => (
      match s
      case "Not" => Some(CompareBitwise(Not))
      case "Number" => Some(Block(Number))
      case _ => None)
    case 'O' => (
      match s
      case "Or" => Some(CompareBitwise(Or))
      case "Origin" => Some(Environment(Origin))
      case _ => None)
    case 'P' => (
      match s
      case "Prevrandao" => Some(Block(Prevrandao))
      case "Pop" => Some(StackMemoryFlow(Pop))
      case "Pc" => Some(StackMemoryFlow(Pc))
      case "Push0" => Some(Push(0))
      case "Push1" => Some(Push(1))
      case "Push2" => Some(Push(2))
      case "Push3" => Some(Push(3))
      case "Push4" => Some(Push(4))
      case "Push5" => Some(Push(5))
      case "Push6" => Some(Push(6))
      case "Push7" => Some(Push(7))
      case "Push8" => Some(Push(8))
      case "Push9" => Some(Push(9))
      case "Push10" => Some(Push(10))
      case "Push11" => Some(Push(11))
      case "Push12" => Some(Push(12))
      case "Push13" => Some(Push(13))
      case "Push14" => Some(Push(14))
      case "Push15" => Some(Push(15))
      case "Push16" => Some(Push(16))
      case "Push17" => Some(Push(17))
      case "Push18" => Some(Push(18))
      case "Push19" => Some(Push(19))
      case "Push20" => Some(Push(20))
      case "Push21" => Some(Push(21))
      case "Push22" => Some(Push(22))
      case "Push23" => Some(Push(23))
      case "Push24" => Some(Push(24))
      case "Push25" => Some(Push(25))
      case "Push26" => Some(Push(26))
      case "Push27" => Some(Push(27))
      case "Push28" => Some(Push(28))
      case "Push29" => Some(Push(29))
      case "Push30" => Some(Push(30))
      case "Push31" => Some(Push(31))
      case "Push32" => Some(Push(32))
      case _ => None)
    case 'R' => (
      match s
      case "Returndatasize" => Some(Environment(Returndatasize))
      case "Returndatacopy" => Some(Environment(Returndatacopy))
      case "Return" => Some(System(Return))
      case "Revert" => Some(System(Revert))
      case _ => None)
    case 'S' => (
      match s
      case "Stop" => Some(StopArith(Stop))
      case "Sub" => Some(StopArith(Sub))
      case "Sdiv" => Some(StopArith(Sdiv))
      case "Smod" => Some(StopArith(Smod))
      case "Signextend" => Some(StopArith(Signextend))
      case "Slt" => Some(CompareBitwise(Slt))
      case "Sgt" => Some(CompareBitwise(Sgt))
      case "Shl" => Some(CompareBitwise(Shl))
      case "Shr" => Some(CompareBitwise(Shr))
      case "Sar" => Some(CompareBitwise(Sar))
      case "Sha3" => Some(Sha3)
      case "Selfbalance" => Some(Block(Selfbalance))
      case "Sload" => Some(StackMemoryFlow(Sload))
      case "Sstore" => Some(StackMemoryFlow(Sstore))
      case "Swap1" => Some(Swap(1))
      case "Swap2" => Some(Swap(2))
      case "Swap3" => Some(Swap(3))
      case "Swap4" => Some(Swap(4))
      case "Swap5" => Some(Swap(5))
      case "Swap6" => Some(Swap(6))
      case "Swap7" => Some(Swap(7))
      case "Swap8" => Some(Swap(8))
      case "Swap9" => Some(Swap(9))
      case "Swap10" => Some(Swap(10))
      case "Swap11" => Some(Swap(11))
      case "Swap12" => Some(Swap(12))
      case "Swap13" => Some(Swap(13))
      case "Swap14" => Some(Swap(14))
      case "Swap15" => Some(Swap(15))
      case "Swap16" => Some(Swap(16))
      case "Staticcall" => Some(System(Staticcall))
      case "Selfdestruct" => Some(System(Selfdestruct))
      case _ => None)
    case 'T' => (
      match s
      case "Timestamp" => Some(Block(Timestamp))
      case _ => None)
    case 'X' => (
      match s
      case "Xor" => Some(CompareBitwise(Xor))
      case _ => None)
    case _ => None
  }

  predicate ParsesBack(op: Opcode) {
    OpcodeNamed(OpString(op)) == Some(op)
  }

  predicate SpaceFree(op: Opcode) {
    ' ' !in OpString(op)
  }

  // The mnemonic table is checked one section at a time.

  lemma ParsesBackStopArith(op: Opcode)
    requires op.StopArith?
    ensures ParsesBack(op)
  {
  }

  lemma ParsesBackCompareBitwise(op: Opcode)
    requires op.CompareBitwise?
    ensures ParsesBack(op)
  {
  }

  lemma ParsesBackSha3(op: Opcode)
    requires op.Sha3?
    ensures ParsesBack(op)
  {
  }

  lemma ParsesBackEnvironmentLow(op: Opcode)
    requires op.Environment? && op.env in {Address, Balance, Origin, Caller, Callvalue, Calldataload, Calldatasize, Calldatacopy}
    ensures ParsesBack(op)
  {
  }

  lemma ParsesBackEnvironmentHigh(op: Opcode)
    requires op.Environment? && op.env !in {Address, Balance, Origin, Caller, Callvalue, Calldataload, Calldatasize, Calldatacopy}
    ensures ParsesBack(op)
  {
  }

  lemma ParsesBackBlock(op: Opcode)
    requires op.Block?
    ensures ParsesBack(op)
  {
  }

  lemma ParsesBackStackMemoryFlow(op: Opcode)
    requires op.StackMemoryFlow?
    ensures ParsesBack(op)
  {
  }

  lemma ParsesBackPushLow(op: Opcode)
    requires op.Push? && op.width <= 16
    ensures ParsesBack(op)
  {
  }

  lemma ParsesBackPushHigh(op: Opcode)
    requires op.Push? && op.width > 16
    ensures ParsesBack(op)
  {
  }

  lemma ParsesBackDup(op: Opcode)
    requires op.Dup?
    ensures ParsesBack(op)
  {
  }

  lemma ParsesBackSwapLow(op: Opcode)
    requires op.Swap? && op.swapIndex <= 8
    ensures ParsesBack(op)
  {
  }

  lemma ParsesBackSwapHigh(op: Opcode)
    requires op.Swap? && op.swapIndex > 8
    ensures ParsesBack(op)
  {
  }

  lemma ParsesBackLog(op: Opcode)
    requires op.Log?
    ensures ParsesBack(op)
  {
  }

  lemma ParsesBackSystemLow(op: Opcode)
    requires op.System? && op.sys in {Create, Call, Callcode, Return, Delegatecall}
    ensures ParsesBack(op)
  {
  }

  lemma ParsesBackSystemHigh(op: Opcode)
    requires op.System? && op.sys !in {Create, Call, Callcode, Return, Delegatecall}
    ensures ParsesBack(op)
  {
  }

  lemma SpaceFreeStopArith(op: Opcode)
    requires op.StopArith?
    ensures SpaceFree(op)
  {
  }

  lemma SpaceFreeCompareBitwise(op: Opcode)
    requires op.CompareBitwise?
    ensures SpaceFree(op)
  {
  }

  lemma SpaceFreeSha3(op: Opcode)
    requires op.Sha3?
    ensures SpaceFree(op)
  {
  }

  lemma SpaceFreeEnvironmentLow(op: Opcode)
    requires op.Environment? && op.env in {Address, Balance, Origin, Caller, Callvalue, Calldataload, Calldatasize, Calldatacopy}
    ensures SpaceFree(op)
  {
  }

  lemma SpaceFreeEnvironmentHigh(op: Opcode)
    requires op.Environment? && op.env !in {Address, Balance, Origin, Caller, Callvalue, Calldataload, Calldatasize, Calldatacopy}
    ensures SpaceFree(op)
  {
  }

  lemma SpaceFreeBlock(op: Opcode)
    requires op.Block?
    ensures SpaceFree(op)
  {
  }

  lemma SpaceFreeStackMemoryFlow(op: Opcode)
    requires op.StackMemoryFlow?
    ensures SpaceFree(op)
  {
  }

  lemma SpaceFreePushLow(op: Opcode)
    requires op.Push? && op.width <= 16
    ensures SpaceFree(op)
  {
  }

  lemma SpaceFreePushHigh(op: Opcode)
    requires op.Push? && op.width > 16
    ensures SpaceFree(op)
  {
  }

  lemma SpaceFreeDup(op: Opcode)
    requires op.Dup?
    ensures SpaceFree(op)
  {
  }

  lemma SpaceFreeSwapLow(op: Opcode)
    requires op.Swap? && op.swapIndex <= 8
    ensures SpaceFree(op)
  {
  }

  lemma SpaceFreeSwapHigh(op: Opcode)
    requires op.Swap? && op.swapIndex > 8
    ensures SpaceFree(op)
  {
  }

  lemma SpaceFreeLog(op: Opcode)
    requires op.Log?
    ensures SpaceFree(op)
  {
  }

  lemma SpaceFreeSystemLow(op: Opcode)
    requires op.System? && op.sys in {Create, Call, Callcode, Return, Delegatecall}
    ensures SpaceFree(op)
  {
  }

  lemma SpaceFreeSystemHigh(op: Opcode)
    requires op.System? && op.sys !in {Create, Call, Callcode, Return, Delegatecall}
    ensures SpaceFree(op)
  {
  }

  /** No two opcodes share a mnemonic. */
  lemma OpStringInjective(a: Opcode, b: Opcode)
    requires OpString(a) == OpString(b)
    ensures a == b
  {
    OpcodeNamedOfOpString(a);
    OpcodeNamedOfOpString(b);
  }

  /** OpcodeNamed inverts OpString. */
  lemma OpcodeNamedOfOpString(op: Opcode)
    ensures OpcodeNamed(OpString(op)) == Some(op)
  {
    match op
    case StopArith(_) => ParsesBackStopArith(op);
    case CompareBitwise(_) => ParsesBackCompareBitwise(op);
    case Sha3 => ParsesBackSha3(op);
    case Environment(x) =>
      if x in {Address, Balance, Origin, Caller, Callvalue, Calldataload, Calldatasize, Calldatacopy} { ParsesBackEnvironmentLow(op); } else { ParsesBackEnvironmentHigh(op); }
    case Block(_) => ParsesBackBlock(op);
    case StackMemoryFlow(_) => ParsesBackStackMemoryFlow(op);
    case Push(x) =>
      if x <= 16 { ParsesBackPushLow(op); } else { ParsesBackPushHigh(op); }
    case Dup(_) => ParsesBackDup(op);
    case Swap(x) =>
      if x <= 8 { ParsesBackSwapLow(op); } else { ParsesBackSwapHigh(op); }
    case Log(_) => ParsesBackLog(op);
    case System(x) =>
      if x in {Create, Call, Callcode, Return, Delegatecall} { ParsesBackSystemLow(op); } else { ParsesBackSystemHigh(op); }
  }

  /** A mnemonic never contains a space. */
  lemma OpStringHasNoSpace(op: Opcode)
    ensures ' ' !in OpString(op)
  {
    match op
    case StopArith(_) => SpaceFreeStopArith(op);
    case CompareBitwise(_) => SpaceFreeCompareBitwise(op);
    case Sha3 => SpaceFreeSha3(op);
    case Environment(x) =>
      if x in {Address, Balance, Origin, Caller, Callvalue, Calldataload, Calldatasize, Calldatacopy} { SpaceFreeEnvironmentLow(op); } else { SpaceFreeEnvironmentHigh(op); }
    case Block(_) => SpaceFreeBlock(op);
    case StackMemoryFlow(_) => SpaceFreeStackMemoryFlow(op);
    case Push(x) =>
      if x <= 16 { SpaceFreePushLow(op); } else { SpaceFreePushHigh(op); }
    case Dup(_) => SpaceFreeDup(op);
    case Swap(x) =>
      if x <= 8 { SpaceFreeSwapLow(op); } else { SpaceFreeSwapHigh(op); }
    case Log(_) => SpaceFreeLog(op);
    case System(x) =>
      if x in {Create, Call, Callcode, Return, Delegatecall} { SpaceFreeSystemLow(op); } else { SpaceFreeSystemHigh(op); }
  }
}
