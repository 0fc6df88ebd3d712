# evm-hound-rs: a verified model of EVM function-selector recovery

This project models the core of evm-hound-rs. The library takes the
deployed bytecode of an Ethereum contract and recovers the 4-byte function
selectors its dispatcher compares call data against. It works in four layers,
and the model has one module per layer:

- `Opcodes` (`Opcodes.dfy`) is the opcode table of the EVM instruction set,
  Appendix H.2 of the Ethereum Yellow Paper, with PUSH0 (EIP-3855) and
  PREVRANDAO (EIP-4399). It holds the byte decoder `from_byte`, the encoder
  `byte`, the push metadata `is_value_push` / `push_value_size` and the
  mnemonic `op_string`. The 145 opcodes are grouped by the sections of that
  appendix. The families PUSHn, DUPn, SWAPn and LOGn carry their index, and
  the decoder computes it from the byte (PUSHn is byte − 0x5f). This is the
  same map as the source's one-arm-per-byte match, and the lemmas below
  state it value by value. The table keeps both quirks of the source: 0x5f
  has no decoder arm, so PUSH0 decodes to Invalid, and DIFFICULTY and
  PREVRANDAO share 0x44, which decodes to PREVRANDAO.
- `Utils` (`Utils.dfy`) holds the byte type and `bytes_to_hex`. It also
  holds a hex decoder, `HexToBytes`, which is the encoder's partner (its
  inverse) and the hex front end of the disassembler.
- `Disassembler` (`Disassembler.dfy`) holds the instruction record, its
  display text and the single forward pass. The pass decodes the opcode at
  the cursor, attaches the push immediate and advances by one plus the
  immediate size.
  - `Disassemble` is the specification. It reads each immediate size off
    the opcode byte (`ImmediateSize`); `Opcodes.FromBytePushValueSize`
    shows this is the size the decoded opcode announces, which is how the
    loops compute it.
  - `Disasm` is the loop as written. It requires well-formed code, where
    every immediate fits, because the source slices immediates unchecked.
  - `DisasmTruncating` is an extension, not source behaviour. It cuts a
    trailing immediate at the end of the code, so it is defined on every
    input. Both methods compute `Disassemble`, so they agree on
    well-formed code.
- `Selectors` (`Selectors.dfy`) slides a five-instruction window over the
  instructions. It recognises the solc idiom (`DUP1 PUSH≤4 EQ PUSHn JUMPI`),
  the Vyper XOR idiom (`PUSH≤4 DUP2 XOR PUSHn JUMPI`) and the old Vyper
  idiom (`PUSH≤4 PUSH1 MLOAD EQ ISZERO`). The push is left-padded to four
  bytes, and each selector is kept the first time it is seen. The string
  form prints each selector as `"0x"` followed by eight lowercase hex digits.
  The window loop of `selectors_from_bytecode` is the method `ScanWindows`,
  and its `save_selector` closure, which updates the list it captures, is
  the method `SaveSelector`, which returns the updated list.
- `ContractTypes` (`ContractTypes.dfy`) classifies a selector list as
  ERC20, ERC721 or ANY. A list is ERC20 when it holds all six EIP-20
  functions; otherwise it is ERC721 when it holds all nine EIP-721
  functions. The test counts the list entries that occur in the reference
  list, as the source does, and the lemmas relate that count to set
  coverage.

Reading decisions:

- The disassembler file is from an older revision that takes hex text. The
  selector extractor calls a disassembler on bytes (src/selectors.rs:35),
  and the byte-slice instruction record is at src/opcodes.rs:836-843, so the
  model works on bytes.
  - The byte cursor plays the role of the hex-text cursor, which is always
    twice the byte cursor.
  - The loop invariant `cursor == codeOffset` is the lock-step of the two
    cursors.
  - The hex front end, `DisasmHex`, strips one leading `0x` and decodes the
    rest with `HexToBytes`, then disassembles the bytes. `Opcode::new` and
    `utils::hex_to_bytes` are not part of this model. This front end is
    not the hex revision's own handling of text (see Left out).
- `is_push4_or_le` is not defined in the files modelled. It is read as
  PUSH1 … PUSH4. Under that reading every `push_value.unwrap()` succeeds,
  and `4 - push_value.len()` cannot underflow.
- The selector extractor of the model uses `DisasmTruncating`. On code
  where every immediate fits, it behaves exactly like the source. On other
  code the source panics.
- The reference selector lists are hex string constants in the source.
  They are written here as the 4-byte values they denote, and
  `Erc20DefaultFuncsHex` and `Erc721DefaultFuncsHex` prove that those values
  print as the source's strings.
- `contract_type_from_selectors` only forwards to `from_selectors`, so it is
  modelled by `FromSelectors`.

## Model

| member | source | states |
|---|---|---|
| Opcodes.FromByte | src/opcodes.rs:303-451 | the decoder: 0x60 … 0x7f decode to PUSH1 … PUSH32 and every other byte to a non-push opcode by its table arm, Invalid where there is none; its properties are the lemmas below |
| Opcodes.IsValuePush | src/opcodes.rs:454-490 | true exactly for PUSH1 … PUSH32, false for PUSH0 and every other opcode; related to the size by PushValueSizeFacts |
| Opcodes.PushValueSize | src/opcodes.rs:493-529 | n for PUSHn and 0 for every other opcode, PUSH0 included; bounded by 32 in PushValueSizeFacts |
| Opcodes.ToByte | src/opcodes.rs:532-680 | the encoder table, with DIFFICULTY and PREVRANDAO both at 0x44; its agreement with the decoder is ToByteOfFromByte and FromByteOfToByte |
| Opcodes.OpString | src/opcodes.rs:683-832 | the CamelCase mnemonic of each opcode; inverted by OpcodeNamed (OpcodeNamedOfOpString), so no two opcodes share one |
| Opcodes.FromByteInvalidIff | src/opcodes.rs:303-451 | decoding is total: a byte decodes to Invalid exactly when it has no arm of its own, or it is 0xfe |
| Opcodes.ToByteOfFromByte | src/opcodes.rs:303-680 | every byte with an explicit decoder arm is encoded back to itself |
| Opcodes.FromByteOfToByte | src/opcodes.rs:303-680 | decoding the byte of an opcode gives the opcode back, except that PUSH0 gives Invalid and DIFFICULTY gives PREVRANDAO |
| Opcodes.FromByteNeverPush0OrDifficulty | src/opcodes.rs:303-451 | no byte decodes to PUSH0 or to DIFFICULTY |
| Opcodes.SharedByte0x44 | src/opcodes.rs:581-582 | DIFFICULTY and PREVRANDAO both encode to 0x44, and 0x44 decodes to PREVRANDAO |
| Opcodes.PushValueSizeFacts | src/opcodes.rs:453-529 | an immediate is at most 32 bytes; an opcode is a value push iff its immediate size is at least one; PUSH0 is not a value push |
| Opcodes.FromBytePushValueSize | src/opcodes.rs:303-529 | the bytes 0x60 … 0x7f announce b − 0x5f immediate bytes and are exactly the value pushes; every other byte announces none |
| Opcodes.OpcodeNamedOfOpString | src/opcodes.rs:683-832 | reading a mnemonic back gives its opcode |
| Opcodes.OpStringInjective | src/opcodes.rs:683-832 | no two opcodes share a mnemonic |
| Opcodes.OpStringHasNoSpace | src/opcodes.rs:683-832 | no mnemonic contains a space |
| Utils.HexDigit | src/utils.rs:2 | a digit below 16 is printed as one lowercase hex character that reads back as the digit |
| Utils.BytesToHex | src/utils.rs:1-3 | the hex text is exactly twice as long as the bytes, and every character is in 0-9a-f |
| Utils.BytesToHexDigits | src/utils.rs:2 | byte i is printed at characters 2i and 2i+1, as the digit of its high nibble and then the digit of its low nibble |
| Utils.BytesToHexConcat | src/utils.rs:2 | the hex text of a concatenation is the concatenation of the hex texts |
| Utils.HexToBytesOfBytesToHex | src/utils.rs:2 | decoding the hex text gives the bytes back |
| Utils.BytesToHexOfHexToBytes | src/utils.rs:2 | every even-length lowercase hex text is the encoding of the bytes it decodes to |
| Utils.BytesToHexInjective | src/utils.rs:2 | different byte strings have different hex texts |
| Disassembler.Display | src/opcodes.rs:846-857 | the mnemonic alone, or the mnemonic, one space and the lowercase hex of the immediate; read back by ReadDisplayOfDisplay |
| Disassembler.DisasmHex | src/disasm.rs:25-37 | drops one leading "0x", decodes the hex text to bytes and disassembles them; None where the text is not whole bytes of hex; text of whole bytes whose last push runs past the end gives Some with the immediate cut (see Left out) |
| Disassembler.Disasm | src/disasm.rs:25-58 | on code where every immediate fits, the two-cursor loop returns the specified instruction list; the byte cursor and the logical offset stay equal at every iteration |
| Disassembler.DisasmTruncating | src/disasm.rs:37-55 | the loop with the immediate cut at the end of the code is defined on all code and returns the specified instruction list |
| Disassembler.DisassembleOffsets | src/disasm.rs:27-54 | the first offset is 0; each next offset is the previous one plus one plus the previous immediate size; offsets strictly increase |
| Disassembler.DisassembleImmediates | src/disasm.rs:40-45 | an immediate is present exactly on a value push; it has the announced size on every instruction but the last, and on the last too when the code is well formed |
| Disassembler.DisassemblePositions | src/disasm.rs:38-45 | each instruction's opcode is the decoded byte at its offset, and its immediate is the bytes that follow it, up to the announced size |
| Disassembler.DisassembleCoverage | src/disasm.rs:37-54 | only empty code gives no instructions; the last instruction ends exactly at the end of the code, and so does its announced immediate when the code is well formed |
| Disassembler.ReassembleDisassemble | src/disasm.rs:38-55 | the opcode bytes and immediates of the result, end to end, are as long as the code; they are the code itself when every opcode byte has a decoder arm |
| Disassembler.Push0NotReassembled | src/opcodes.rs:365-369 | a lone 0x5f (PUSH0) disassembles to Invalid and so is not reassembled to itself |
| Disassembler.TruncatedPush | src/disasm.rs:38-42 | a trailing PUSH4 with no byte or with two bytes after it (`[0x63]`, `[0x63, 0x01, 0x02]`) is not well formed, so the loop as written does not accept it; the specification keeps the bytes that remain |
| Disassembler.DisasmHexEmpty | src/disasm.rs:29-37 | empty text and a bare "0x" give no instructions |
| Disassembler.DisasmHexPrefix | src/disasm.rs:29-33 | exactly one leading "0x" is dropped: "0x" + s reads like s when s has no prefix |
| Disassembler.DisasmHexDoublePrefix | src/disasm.rs:29-33 | a second "0x" is not dropped; the model then reads "0x" as a byte, gets no hex digits and returns None |
| Disassembler.DisasmHexTruncatedPush | src/disasm.rs:38-42 | the hex text "63" and "0x63" give Some with one PUSH4 and an empty immediate, although the code is not well formed; the hex revision slices past the end there |
| Disassembler.DisasmHexOfBytesToHex | src/disasm.rs:29-37 | the hex text of some code, with or without "0x", disassembles like the code itself |
| Disassembler.ReadDisplayOfDisplay | src/opcodes.rs:846-857 | the display text ("mnemonic" or "mnemonic hex") reads back to the opcode and the immediate |
| Disassembler.DisplayInjective | src/opcodes.rs:846-857 | two instructions with the same display text have the same opcode and the same immediate |
| Selectors.IsPush4OrLeIff | src/selectors.rs:55 | a selector push is a value push with an immediate of at most four bytes |
| Selectors.SliceToSelector | src/selectors.rs:118-132 | the array filled by the loop is the value left-padded with zeros to four bytes |
| Selectors.LeftPadFacts | src/selectors.rs:118-132 | the value is the suffix of the selector, the bytes before it are zero, the big-endian number is unchanged, and a 4-byte value is returned as is |
| Selectors.MatchWindow | src/selectors.rs:50-99 | the selector of a window: the solc test first, then Vyper XOR, then Vyper MLOAD, each giving its push's immediate left-padded to four bytes; the tests exclude each other (PatternsExclusive) |
| Selectors.PatternsExclusive | src/selectors.rs:54-99 | no window matches two idioms, so the order of the tests does not matter; a window gives a selector iff it matches one of the three idioms |
| Selectors.SaveSelector | src/selectors.rs:38-42 | the selector is appended only when absent, so a list of the first occurrences of what was seen stays one after the new selector is seen |
| Selectors.ScanWindows | src/selectors.rs:44-100 | the window loop, with its continues, returns every matching window's selector once, in the order of first match |
| Selectors.SelectorsFromBytecode | src/selectors.rs:34-103 | disassembling with immediates cut at the end of the code, then scanning, returns the selectors the specification recovers |
| Selectors.SelectorsOfMembers | src/selectors.rs:46-99 | a selector is recovered iff some window at some position, advancing by one, matches an idiom that yields it |
| Selectors.SelectorsOfNoDuplicates | src/selectors.rs:38-42 | no selector is recovered twice |
| Selectors.SelectorsOfOrder | src/selectors.rs:38-48 | recovered selectors come in the order of their first matching window |
| Selectors.FewInstructions | src/selectors.rs:44-46 | code of fewer than five instructions gives no selector |
| Selectors.SolcExample | src/selectors.rs:50-65 | a solc dispatcher entry for transfer yields exactly the selector a9059cbb |
| Selectors.VyperXorExample | src/selectors.rs:71-85 | a Vyper XOR entry with a 2-byte push yields the left-padded selector 00009cbb |
| Selectors.VyperMloadExample | src/selectors.rs:87-99 | an old Vyper MLOAD entry yields its selector, whatever byte the PUSH1 carries |
| Selectors.SelectorString | src/selectors.rs:113 | the string form is ten characters, "0x" followed by hex text that decodes to the selector |
| Selectors.StringSelectors | src/selectors.rs:108-115 | the string list keeps the length and order of the selector list, element by element |
| Selectors.StringSelectorsNoDuplicates | src/selectors.rs:108-115 | distinct selectors give distinct strings |
| Selectors.StringSelectorsFromBytecode | src/selectors.rs:108-115 | the loop returns the string forms of the recovered selectors |
| Selectors.StringSelectorsConcat | src/selectors.rs:111-114 | the string form of a concatenation is the concatenation of the string forms |
| Selectors.ExpectedListsAgree | src/lib.rs:43-120 | the expected selector list of the tests maps element-wise onto the expected string list |
| ContractTypes.CountIn | src/contract_types.rs:58-61 | the number of entries of the list that are in the reference list, repeats counted; never more than the list's length |
| ContractTypes.HasAllSelectors | src/contract_types.rs:55-64 | the literal test that this count equals the reference list's length; equivalent to coverage only for lists without repeats (HasAllSelectorsIff) |
| ContractTypes.FromSelectors | src/contract_types.rs:37-45 | ERC20 if the ERC20 test passes, else ERC721 if that test passes, else ANY; characterised by FromSelectorsCoverage |
| ContractTypes.CountInConcat | src/contract_types.rs:58-61 | the count of entries in a reference list adds up over concatenation |
| ContractTypes.CountInDistinct | src/contract_types.rs:58-61 | for a list without duplicates, the count is the size of its intersection with the reference list |
| ContractTypes.HasAllSelectorsIff | src/contract_types.rs:55-64 | for lists without duplicates, the count test holds iff every reference selector is present |
| ContractTypes.Erc20DefaultFuncsHex | src/contract_types.rs:3-10 | the ERC20 reference selectors, as hex strings, are the repository's six strings in the same order |
| ContractTypes.Erc721DefaultFuncsHex | src/contract_types.rs:12-22 | the ERC721 reference selectors, as hex strings, are the repository's nine strings in the same order |
| ContractTypes.ReferenceListsDistinct | src/contract_types.rs:3-22 | neither reference list contains a duplicate |
| ContractTypes.FromSelectorsCoverage | src/contract_types.rs:37-45 | for a list without duplicates: ERC20 iff the EIP-20 set is covered; ERC721 iff the EIP-721 set is covered and the EIP-20 set is not; ANY iff neither is covered |
| ContractTypes.ClassifyRecovered | src/contract_types.rs:37-52 | the classification of recovered selectors follows coverage, with no precondition |
| ContractTypes.CountInPermutation | src/contract_types.rs:58-61 | the count does not depend on the order of the list |
| ContractTypes.FromSelectorsPermutation | src/contract_types.rs:37-64 | permuting the selector list does not change the classification |
| ContractTypes.CountInNone | src/contract_types.rs:58-61 | a list with no reference selector counts zero |
| ContractTypes.FromSelectorsIrrelevant | src/contract_types.rs:37-64 | adding selectors that are in neither reference list does not change the classification |
| ContractTypes.RepeatsPassCount | src/contract_types.rs:55-64 | the literal count can be met by repeats: six copies of transfer classify as ERC20 without covering the EIP-20 set |
| ContractTypes.ExpectedListIsErc20 | src/lib.rs:126-134 | the expected selector list of the tests classifies as ERC20 |

## Left out

- Fetching bytecode over JSON-RPC, the async runtime, file reads and writes,
  the command-line program and the examples (src/main.rs, examples/*.rs and
  the test harness in src/lib.rs) are I/O. Only the literal expected lists
  of the tests appear, as lemma data.
- `Opcode::new` (used by the hex revision of `disasm`) and
  `utils::hex_to_bytes` are not part of this model. Hex text is decoded by
  the model's own `HexToBytes`, and the reference selectors are written as
  bytes.
- `fmt::Formatter` and `write!`: only the resulting string is modelled
  (`Display`, `SelectorString`). Derived traits (`Debug`, ordering) are out.
- Lifetimes and borrowing: an instruction owns its immediate as a
  `seq<uint8>` instead of borrowing a slice of the code.
- The hex-text `Instruction` of src/disasm.rs:4-22 carries the immediate as
  the slice of the input text. The model keeps the byte form of
  src/opcodes.rs:836-857, whose display prints the immediate in lowercase
  hex. The two texts agree on lowercase input; on uppercase input the hex
  revision prints the digits as given.
- Disassembler.DisasmHex: None stands for inputs the hex revision does not
  produce a list for, or that depend on the unmodelled `Opcode::new`: odd
  length text panics at src/disasm.rs:38, and non-hex characters go to
  `Opcode::new`. Not every input the hex revision rejects gives None: text
  of whole hex bytes whose last push needs more bytes than remain ("63",
  "0x63") makes the hex revision slice past the end and panic at
  src/disasm.rs:42, while the model decodes it and reads it with the total
  loop, returning Some with the immediate cut to the bytes that remain
  (DisasmHexTruncatedPush). Non-hex characters inside an immediate are copied verbatim
  by the source (src/disasm.rs:42, 15-16), where the model rejects them, and
  immediates are decoded and re-encoded in lowercase rather than copied.
- Selectors.SelectorsFromBytecode: returns a selector list on every input,
  including code with a trailing immediate that runs past the end, where the
  source's `disasm` panics (src/disasm.rs:42); it uses `DisasmTruncating`.
- Integer widths: offsets and cursors are unbounded, where the source uses
  `usize`. No realistic contract comes near the bound.
- Selectors.SliceToSelector: requires at most four bytes. The source's
  callers pass only PUSH1 … PUSH4 immediates, and a longer value would
  underflow `4 - len` in the source.
- Disassembler.DisasmTruncating: an extension, not the source's behaviour.
  The evidently intended behaviour is that the extractor accepts any byte
  sequence, with a trailing immediate that runs past the end cut to the
  bytes that remain. The code as written slices past the end and panics
  instead (see Findings). The model follows the code in
  `Disasm` and offers the cut as a separate method.
- Disassembler.ReassembleDisassemble: reproduces the code only when every
  opcode byte has a decoder arm. Any other byte decodes to Invalid, which
  encodes as 0xfe, and PUSH0 has no arm at all.

## Findings

| source | as written | input that shows it | evidently intended | confidence | as-written member | corrected member |
|---|---|---|---|---|---|---|
| src/disasm.rs:38-42 | the immediate of a push is sliced out of the code without a bounds check, so a push near the end of the code slices past the end and panics | the hex text "63" or "0x63" for the hex revision, the bytes `[0x63]` for the byte form (PUSH4 with no bytes after it) | the extractor accepts any byte sequence and cuts a trailing immediate to the bytes that remain | not executed | Disassembler.TruncatedPush | Disassembler.DisasmTruncating |
