# fuzzycrypto in Dafny

A model of the sequential core of fuzzycrypto, a Go library for fuzzy message
detection. A sender flags a message for a recipient. The recipient extracts a
detection key that matches that recipient's flags with a chosen probability.
The model covers three parts.

- **The toy garbled-circuit engine** (`toygarble`):
  - the Bristol circuit parser and its wire-to-gate map (modules `Bristol`, `BristolParser`, `BristolProps`);
  - the circuit datatype the parser builds (module `Circuits`);
  - Free-XOR label assignment, and point-and-permute tables encrypted with BLAKE2b-128 (module `Garble`);
  - the memoised recursive evaluator and output decoding (module `Evaluate`);
  - the byte packing of a garbled circuit (module `Packing`).
- **The power-of-two scheme** (`elGamal.go`, module `ElGamal`):
  - key generation, Flag with its packed bit vector and the value Y;
  - prefix Extract, and the all-bits-one Test;
  - the hashes H and G.
  - Both schemes share rejection sampling of scalars (`utils.go`, module `Sampling`) and the key types (`scheme.go`, module `Scheme`).
- **The fractional scheme** (`fractional.go`, module `Fractional`):
  - 2·γ key pairs, one per label of the γ recipient wires of a comparison circuit;
  - Flag: garble the circuit, mask the recipient's wire labels with Diffie–Hellman pads, and write a transcript;
  - bit-indexed Extract;
  - Test: undo the masks the detection key selects, evaluate the circuit, and compare its output with the key's threshold.

The curve operations, SHA-256 (FIPS 180-4), BLAKE2b (RFC 7693) and the
uncompressed point encoding of section 2.3.3 of SEC 1 are uninterpreted
functions. They are passed in as values of function type: `Curve`, `Sha256`
and `Hash`. Their output lengths are fixed by their types: 32 bytes for
SHA-256 and 16 bytes for BLAKE2b.

The two sources of randomness are modelled differently:
- `crypto/rand` is a `Reader` over a finite byte sequence, so it can run out.
- The `math/rand` generator of the garbler is an `Rng` over an endless stream. Its `Read` never fails.

A Go panic becomes a failure result (`None` or `false`). This covers an index
out of range, a `check(err)` and a nil dereference.

Stateful structures follow the source's own form:
- `SimpleGarbledCircuit` is a class whose methods update its fields.
- The parser fills a gate array and a wire array in place.
- Evaluation works on shared `visited`/`calculated`/`labels` arrays.
- The loops of Flag, Test, Extract, computeHashG and sampleRandomScalar are loops.

Each such method is proved against a specification function. The lemmas
relate those functions to one another:
- pack, then unpack, gives the garbled circuit back;
- a correctly garbled circuit evaluates to the labels of the plaintext outputs;
- Test of a Flag transcript equals the comparison of the plaintext circuit output with the threshold.

Where the code and its documentation differ, the model follows the code:
- computeHashG stops once `len(h)/8` reaches `bitlen(N)+64`, that is once the byte count divided by 8 does. So it hashes eight times more than "bitlen(N)+64 bits" needs (elGamal.go:311).
- A transcript that is too short does not fail to decode where Go's `bytes.Buffer.Read` only reads fewer bytes. The missing bytes stay zero, and only an empty buffer fails (fractional.go:264, fractional.go:284).
- The parser takes the output wire of an EQ line from field 4, which is the opcode. A CONST gate's single input is the constant bit, not a gate reference (toygarble/bristolparse.go:146-151).
- CONST and COPY gates cannot be garbled (toygarble/src/simplegarble.go:509-523, 645-648).
- The circuit type's own source file (with `initializeCircuit`, `connectOutputWire`, `getOutputGate` and `validCircuit`) is not part of this model. Those helpers are modelled from their call sites:
  - gates `0..NumInputWires-1` are INPUT gates and the next `NumOutputWires` are OUTPUT gates;
  - `validCircuit` is read as "that layout, and every reference points to a gate of lower rank", which makes the gate graph acyclic.

## Model

| member | source | states |
|---|---|---|
| Circuits.Circuit.GetOutputGate | toygarble/bristolparse.go:190-195 | output wire i is gate NumInputWires + i, which for 0 <= i < NumOutputWires is in the OUTPUT gate range and, in a laid-out circuit, is an OUTPUT gate |
| Circuits.InitializeCircuit | toygarble/bristolparse.go:63 | succeeds iff both wire totals are non-negative; builds totalIn INPUT gates then totalOut OUTPUT gates with no inputs, and records the counts |
| Circuits.ConnectOutputWire | toygarble/bristolparse.go:172-176 | succeeds iff output index and source gate are in range; then only the output gate changes, to an OUTPUT gate reading from the source, and the layout is kept |
| BristolParser.ReadWidths | toygarble/bristolparse.go:36-54 | the loop over a header line yields the listed widths and their sum as the total wire count |
| BristolParser.ReadHeader | toygarble/bristolparse.go:27-54 | reads gate/wire counts and the input and output widths; the totals are the sums of the widths |
| BristolParser.ReadGateLine | toygarble/bristolparse.go:93-167 | one gate line read against the current wire map is exactly GateLine |
| BristolProps.GateLineShape | toygarble/bristolparse.go:93-167 | an unknown or missing opcode fails; AND/XOR/OR take fields 2 and 3 and write field 4, INV/EQW take field 2 and write field 3, EQ keeps the literal field 2 as its input and reads its output from field 4; every gate-reference input is wireToGate of its field and never -1 |
| BristolProps.WireToGateAsCalled | toygarble/bristolparse.go:184-206 | with totalWires = NumInputWires as the parser passes it, a wire below NumInputWires maps to itself, any other wire is looked up in wires (out of range fails), and an unset entry gives -1 |
| BristolParser.ApplyLine | toygarble/bristolparse.go:88-168 | one pass of the gate loop stores the gate at index i and records wires[outWire] = i, exactly as Step |
| BristolParser.FillGates | toygarble/bristolparse.go:87-169 | the gate loop succeeds iff every line does, leaving gates and wire map as RunGates gives them |
| BristolProps.StepFills | toygarble/bristolparse.go:87-105 | each step fills slot base + n with that line's gate and leaves every other slot alone |
| BristolProps.RunGatesPlacement | toygarble/bristolparse.go:87-105 | the k-th gate line lands at gate index totalIn + totalOut + k, built against the wire map of the lines before it |
| BristolProps.UnknownOpcodeFails | toygarble/bristolparse.go:165-167 | one line with an unknown opcode makes the whole run fail |
| BristolProps.ParseRejectsUnknownOpcode | toygarble/bristolparse.go:165-167 | a gate line with an unknown opcode makes the whole parse return false |
| BristolParser.ConnectAll | toygarble/bristolparse.go:172-176 | the output loop connects output i to wires[numWires - totalOut + i] and stops at the first failure, as ConnectOutputs |
| BristolProps.ConnectOutputsEffect | toygarble/bristolparse.go:172-176 | a successful connection changes only the gate list, keeping its length, and each output slot reads from its wire's gate |
| BristolProps.ConnectOutputsFails | toygarble/bristolparse.go:172-176 | an output whose wire entry is out of range or names no gate makes the connection fail |
| BristolParser.ParseBristolCircuitFile | toygarble/bristolparse.go:16-180 | the parser method computes exactly ParseBristol |
| BristolProps.ParseResult | toygarble/bristolparse.go:16-180 | a parsed circuit is the initialized circuit with its gate lines in place and its outputs connected |
| BristolProps.ParseBristolShape | toygarble/bristolparse.go:27-87 | a parsed circuit has the header's input/output counts and widths, the INPUT/OUTPUT/real-gate layout, and every gate with exactly its type's arity |
| BristolProps.ParseBristolOrder | toygarble/bristolparse.go:87-176 | each real gate reads only gates placed before it, and each output reads a real gate or gate 0 |
| BristolProps.ParsedCircuitValid | toygarble/bristolparse.go:16-180 | a parsed circuit with at least one input, no CONST gate and no negative reference is valid for garbling |
| Garble.WireLabelSet.Get | toygarble/src/simplegarble.go:198-204 | WireLabelPair[b] picks label 1 for true and label 0 for false |
| Garble.Rng.Read | toygarble/src/simplegarble.go:152 | rand.Read returns the next n bytes of the stream and advances past them |
| Garble.TableSize | toygarble/src/simplegarble.go:470-481 | XOR gets 0 rows, CONST 1, NOT and OUTPUT 2, every other type 4 |
| Garble.GetLabelBits | toygarble/src/simplegarble.go:568-576 | the two label bits of a row are its high and low bit |
| Garble.GetGatePermutation | toygarble/src/simplegarble.go:638-669 | size 0 gives the identity and succeeds; size 2 puts rows 0/1 at m0/1-m0; size 4 puts row i at 2·((i>>1)^m0)+((i&1)^m1), a permutation of 0..3; any other size (or missing masks) fails |
| Garble.PermIndexInvolution | toygarble/src/simplegarble.go:656-664 | applying the size-4 row permutation twice gives the row back |
| Garble.PermutationRows | toygarble/src/simplegarble.go:656-664 | a sequence placing each row by the size-4 rule is a permutation of 0..3 |
| Garble.HashInput | toygarble/src/simplegarble.go:587-594 | the hashed input is the row byte followed by the first 15 bytes of each input label |
| Garble.DecryptEncrypt | toygarble/src/simplegarble.go:580-634 | decrypting an entry with the same row and input labels gives back the encrypted output label |
| Garble.SetLowBit | toygarble/src/simplegarble.go:150-156 | delta keeps the 15 drawn bytes and has the low bit of its last byte set |
| Garble.PermuteBitsDiffer | toygarble/src/simplegarble.go:150-156 | the two labels of every assigned wire differ in the point-and-permute bit (with toygarble/src/simplegarble.go lines 413-456) |
| Garble.GarbledCircuit.constructor | toygarble/src/simplegarble.go:132-149 | the zero value of the garbled-circuit struct |
| Garble.GarbledCircuit.AssignWireLabelsRecurs | toygarble/src/simplegarble.go:382-461 | labels already set are kept; inputs are labelled first; afterwards gate g is labelled and every label meets the Free-XOR invariant (XOR: L0^R0 / L0^R1; OUTPUT: all 0x00 / all 0x01; others: random, bytes 0..4 cleared, label1 = label0^delta); fails only where a XOR gate lacks two inputs; the generator moves on by 16 bytes for each newly labelled gate that is neither XOR nor OUTPUT |
| Garble.GarbledCircuit.NewLabels | toygarble/src/simplegarble.go:407-456 | the new pair of gate g meets its wire invariant; a gate that is neither XOR nor OUTPUT takes the next 16 stream bytes, label 0 being those bytes with bytes 0..4 cleared, and moves the generator by 16; XOR and OUTPUT gates draw nothing |
| Garble.GarbledCircuit.LabelGate | toygarble/src/simplegarble.go:405-460 | gate g's pair is stored and marked set, nothing else changes, every label stays well formed, and a drawn pair is built from the next 16 stream bytes |
| Garble.GarbledCircuit.AssignInputs | toygarble/src/simplegarble.go:394-403 | every input of g is labelled first, g stays unset, and the generator moves by 16 bytes per newly labelled drawing gate |
| Garble.XorPairOk | toygarble/src/simplegarble.go:413-431 | a XOR gate's pair (L0^R0, L0^R1) meets the Free-XOR invariant |
| Garble.RandomPairOk | toygarble/src/simplegarble.go:443-456 | a random pair with bytes 0..4 cleared and label1 = label0^delta meets the invariant |
| Garble.GarbledCircuit.GarbleGate | toygarble/src/simplegarble.go:466-564 | succeeds iff the gate has a table size and a truth table; then only its own table changes, to the point-and-permute table GateTable |
| Garble.EntryRowInvolution | toygarble/src/simplegarble.go:498-559 | the entry of each truth-table row lands at a table slot, and that slot maps back to the row |
| Garble.GarbledCircuit.EncryptRows | toygarble/src/simplegarble.go:525-559 | the encryption loop builds exactly the gate's permuted table |
| Garble.GarbledCircuit.GarbleCircuit | toygarble/src/simplegarble.go:132-182 | an invalid circuit fails with nothing changed; delta is the next 16 stream bytes with the low bit set; success iff every XOR gate has two inputs and every gate can be garbled, and then the object holds a well-garbled circuit and the generator has moved by 16 bytes for delta plus 16 for each gate that is neither XOR nor OUTPUT |
| Garble.GarbledCircuit.AssignAll | toygarble/src/simplegarble.go:160-163 | the first loop labels every gate, succeeding iff every XOR gate has two inputs; the generator moves by 16 bytes per newly labelled drawing gate |
| Garble.GarbledCircuit.GarbleAll | toygarble/src/simplegarble.go:167-178 | the second loop fills the table of every non-input gate and stops at the first gate that cannot be garbled |
| Evaluate.GoShiftOne | toygarble/src/simplegarble.go:298 | Go's 1 << k is 2^k below 63 and 0 from 64 on |
| Evaluate.EvaluateGarbledGate | toygarble/src/simplegarble.go:250-370 | on a valid circuit, succeeds iff the gate has a garbled value and returns it; a visited but uncalculated gate fails as a cycle; calculated labels stay cached and correct |
| Evaluate.EvaluateInputs | toygarble/src/simplegarble.go:285-320 | the input labels are evaluated recursively and combined as Combine prescribes |
| Evaluate.CombineLabels | toygarble/src/simplegarble.go:298-360 | a non-XOR table of the wrong length fails; XOR is the bytewise XOR; other gates decrypt row 2·lsb1+lsb2 or row lsb1 |
| Evaluate.EvaluateCircuit | toygarble/src/simplegarble.go:213-247 | fails on a wrong number of input labels or no outputs; on a valid circuit succeeds iff every output gate evaluates, returning their labels in order |
| Evaluate.GarbledValueCorrect | toygarble/src/simplegarble.go:250-370 | evaluating a well-garbled circuit on the labels of input x gives each gate the label of its plaintext value (with toygarble/src/simplegarble.go lines 466-564) |
| Evaluate.OutputsDecode | toygarble/src/simplegarble.go:436-441 | each output evaluates to the all-0x00 or all-0x01 label of its plaintext bit, whose low bit is that bit (with toygarble/src/simplegarble.go lines 715-722) |
| Evaluate.EvaluationDecodes | toygarble/src/simplegarble.go:213-247 | the decoded output string shows the plaintext output bits, output i at position i from the right (with toygarble/src/simplegarble.go lines 715-722) |
| Evaluate.GetInputLabelsFromBools | toygarble/src/simplegarble.go:186-209 | nil unless the length equals NumInputWires; otherwise label inputs[i] of wire i |
| Evaluate.InputLabelsEncode | toygarble/src/simplegarble.go:186-209 | the labels so chosen encode input x |
| Evaluate.DecodePlaintextOutputLabels | toygarble/src/simplegarble.go:715-722 | one character per label; the i-th from the right is the low bit of label i's last byte |
| Evaluate.DecodeResultLabels | toygarble/src/simplegarble.go:726-746 | succeeds iff each label is one of its wire's two labels; then bit i is true iff label i is not label 0 |
| Evaluate.DecodeResultRoundTrip | toygarble/src/simplegarble.go:726-746 | decoding the labels of bits (with distinct pairs) gives the bits back |
| Evaluate.GenerateWireLabels | toygarble/src/simplegarble.go:676-711 | label0 takes 15 stream bytes and label1 = label0^delta on them; structured: last bytes 0 and 1; otherwise two more stream bytes |
| Evaluate.StructuredPairDecodes | toygarble/src/simplegarble.go:676-711 | the low bit of a structured label is its truth value |
| Packing.PackedMarshal | toygarble/src/simplegarble.go:42-62 | label 0 then label 1 of each input wire, then every gate's rows in gate order |
| Packing.PackInputLabels | toygarble/src/simplegarble.go:45-52 | the label loop writes the rows of the input wires' pairs |
| Packing.PackTables | toygarble/src/simplegarble.go:54-60 | the table loop writes every gate's rows in order |
| Packing.PackedUnmarshal | toygarble/src/simplegarble.go:64-119 | succeeds iff the bytes hold exactly the input labels and each gate's table rows; then the object holds what Unpack reads |
| Packing.UnmarshalLabels | toygarble/src/simplegarble.go:70-81 | fails on a short read; otherwise reads label 0 and 1 of each input wire |
| Packing.ReadLabelPairs | toygarble/src/simplegarble.go:70-81 | the label loop succeeds iff 32 bytes per input wire are there, and then pair i is rows 2i and 2i+1 |
| Packing.ReadTables | toygarble/src/simplegarble.go:83-117 | each gate gets TableSize rows (INPUT none); a short read or leftover bytes fail |
| Packing.ReadGate | toygarble/src/simplegarble.go:87-111 | one gate's table is read at its row offset, or fails if the bytes run out |
| Packing.PackRoundTrip | toygarble/src/simplegarble.go:42-119 | unpacking what was packed, with the same circuit, gives back the input labels and tables |
| Packing.GarbledPackRoundTrip | toygarble/src/simplegarble.go:42-119 | the same round trip holds for every well-garbled circuit (with toygarble/src/simplegarble.go lines 132-182) |
| Sampling.Reader.ReadFull | utils.go:47 | io.ReadFull fills the buffer from the stream, or fails and empties it |
| Sampling.Masked | utils.go:54-58 | the first byte is masked with mask[bitSize%8] and the second XORed with 0x42 |
| Sampling.CandidateFits | utils.go:30 | the masked candidate fits in bitlen(N) bits (with utils.go lines 41-54) |
| Sampling.SampleFrom | utils.go:35-69 | a sampled scalar is below N |
| Sampling.SampleFromStep | utils.go:46-66 | each attempt consumes ceil(bitlen(N)/8) bytes and either accepts a candidate below N or retries on the rest |
| Sampling.SampleRandomScalar | utils.go:35-69 | the loop computes SampleFrom: a scalar below N, or nil on a read error, without retrying |
| Sampling.Attempt | utils.go:46-66 | one pass of the loop: read failure, acceptance, or retry |
| Sampling.ReadAndMask | utils.go:41-58 | the read fills the block (or fails) and masks it |
| Sampling.KeyGenSingle | utils.go:18-28 | the pair (x, x·P) for the sampled x < N, or failure when sampling fails |
| Sampling.SampleN | elGamal.go:44-46 | k successive draws of sampleRandomScalar give k scalars, each below N |
| Sampling.SampleNPrefix | elGamal.go:44-46 | the first j of k successive draws are the j-draw result, and a failure among the first j makes the k draws fail |
| Sampling.KeyPairs | elGamal.go:44-46 | the key loop succeeds iff all k draws do; the secret keys are exactly the k scalars drawn, the reader is left after them, and each public key is its scalar times P (the same loop is fractional.go lines 56-58) |
| Scheme.MinimalBytesRoundTrip | utils.go:25 | big.Int.Bytes encodes the scalar big-endian |
| ElGamal.HashH | elGamal.go:269-285 | the hash H is 0 or 1 |
| ElGamal.NumDigestsMinimal | elGamal.go:306-318 | the loop stops after the fewest digests whose byte count divided by 8 reaches bitlen(N)+64 |
| ElGamal.ComputeHashG | elGamal.go:290-327 | the digest loop computes HashG, which lies in [0, N) |
| ElGamal.KeyGen | elGamal.go:32-49 | succeeds iff numKeys >= 0 and numKeys scalars can be drawn; then the secret keys are those draws in order, each public key is x_i·P, numKeys is kept and prob = uint32(numKeys) |
| ElGamal.SetBitInVector | elGamal.go:84 | ORing bit i into byte i/8 at i%8 sets bit i and keeps every other bit |
| ElGamal.SetBit | elGamal.go:84 | OR-ing a bit into a clear position is read back there and leaves other positions alone (with elGamal.go lines 214) |
| ElGamal.PackPads | elGamal.go:60 | the bit vector of (NumKeys+7)/8 bytes holds bit i = H(U, r·pk_i, Z) XOR 1 at byte i/8, position i%8 (with elGamal.go lines 72-85) |
| ElGamal.ModInverse | elGamal.go:95-96 | the inverse of r mod N when one exists, and none otherwise |
| ElGamal.ComputeY | elGamal.go:90-98 | Y is in [0, N) and v + Y·r = z mod N when r is invertible |
| ElGamal.YSolves | elGamal.go:92-98 | (z - v)·r⁻¹ mod N solves v + Y·r = z mod N |
| ElGamal.Flag | elGamal.go:53-103 | succeeds iff both scalars can be sampled and the key list is long enough; then the ciphertext holds U = r·P, the packed pads and Y for the sampled r and z (with elGamal.go lines 108-156) |
| ElGamal.Extract | elGamal.go:161-178 | fails iff the count is negative or above numKeys; otherwise the first numKeys scalars in order, with prob = numKeys |
| ElGamal.ExtractValid | elGamal.go:161-178 | an extracted key keeps the key-type invariant and the prefix of scalars |
| ElGamal.TestBits | elGamal.go:206-221 | the loop returns true iff every recomputed bit equals 1 |
| ElGamal.Test | elGamal.go:183-224 | Test computes TestResult: Z = v·P + Y·U, then all recomputed bits must be 1 |
| ElGamal.EmptyKeyAcceptsAll | elGamal.go:194-196 | a key with no subkeys accepts every ciphertext |
| ElGamal.Correctness | elGamal.go:72-85 | when the shared points and Z match, Test of a Flag ciphertext returns true (with elGamal.go lines 198-221) |
| Fractional.KeyPad | fractional.go:81-82 | a pad is the first 16 bytes of H_I |
| Fractional.EncryptLabel | fractional.go:63-70 | label XORed bytewise with the first 16 bytes of H_I |
| Fractional.EncryptLabelInvolution | fractional.go:63-70 | applying the same pad twice gives the label back |
| Fractional.KeyGen | fractional.go:37-61 | succeeds iff gamma is 8 or 24 and 2·gamma scalars can be drawn; then the secret keys are those draws in order, each public key is x_i·P, numKeys = 2·gamma and prob = 0xFFFFFFFF |
| Fractional.AnonKeyStream | fractional.go:72-86 | public key i pads slot i%2 of wire pair i/2 |
| Fractional.AnonKeyStreamIsPadPairs | fractional.go:72-86 | with numKeys/2 pairs, the stream is the pads of key pairs 2i and 2i+1 (with fractional.go lines 146) |
| Fractional.Extract | fractional.go:183-205 | fails unless 0 <= numerator < 2^(numKeys/2); otherwise numKeys/2 keys, key i = secKeys[2i + bit i of numerator], prob = numerator |
| Fractional.SlotAgreement | fractional.go:196-200 | the key Extract hands out at position idx sits in pair idx at the slot Test decrypts (with fractional.go lines 275-278) |
| Fractional.SignByte | fractional.go:92-95 | the sign byte is 1 exactly for a negative coordinate |
| Fractional.EncodeCoord | fractional.go:92-100 | sign byte then an L-byte big-endian magnitude, when the magnitude fits |
| Fractional.EncodeShare | fractional.go:88-111 | both coordinates with L = P.BitLen() bytes each, so 2 + 2L bytes |
| Fractional.ReadByte | fractional.go:211-212 | ReadByte fails only on an empty buffer |
| Fractional.Read | fractional.go:214-215 | Read fails only on an empty buffer; a short buffer leaves the rest of the slice zero |
| Fractional.ShareRoundTrip | fractional.go:88-111 | decoding an encoded share gives the point back, whatever follows it (with fractional.go lines 207-233) |
| Fractional.CoordRoundTrip | fractional.go:92-100 | decoding one encoded coordinate gives it back (with fractional.go lines 210-220) |
| Fractional.MaskLabels | fractional.go:147-153 | the pads are XORed into the labels of the recipient wires, and nothing else changes |
| Fractional.ChosenLabels | fractional.go:167-170 | label bit i of the random number for each sender wire |
| Fractional.Flag | fractional.go:113-180 | succeeds iff the scalar is sampled, the circuit garbles and the transcript is written; then the bytes are the transcript of the garbled labels and tables |
| Fractional.WriteTranscript | fractional.go:143-178 | share, masked label pairs, the sender's chosen labels and the packed circuit, in that order, with the masked labels also in the packed section |
| Fractional.MaskRecipientLabels | fractional.go:147-161 | the loop masks the labels in place and writes label 0 then 1 of each recipient wire |
| Fractional.MaskPairs | fractional.go:147-161 | the loop over pairs computes the masked labels and their rows |
| Fractional.WriteChosenAndPacked | fractional.go:163-178 | 16 random bytes (or failure) choose the sender labels, then the packed circuit follows |
| Fractional.WriteChosenLabels | fractional.go:168-176 | the sender loop writes label bit i of x for each of its wires |
| Fractional.ReadLabelsFlat | fractional.go:259-268 | reading back written labels gives them and what follows (with fractional.go lines 282-287) |
| Fractional.ModPairs | fractional.go:259-268 | labels 2i and 2i+1 form pair i |
| Fractional.RecipientLabels | fractional.go:269-280 | pad of subkey idx XORed with slot bit idx of prob of pair idx |
| Fractional.ReadModLabels | fractional.go:259-268 | the first loop of Test reads 2·mod labels as mod pairs |
| Fractional.RecoverLabels | fractional.go:269-280 | the second loop fills the recipient slots with the recovered labels and leaves the others |
| Fractional.ReadOwnLabels | fractional.go:282-287 | the third loop reads the sender's labels into the first slots |
| Fractional.FillInputLabels | fractional.go:258-287 | the assembled inputs are the sender's labels followed by the recovered ones |
| Fractional.AssembleLabels | fractional.go:254-290 | the reading half of Test computes TestLabels |
| Fractional.ParseUintBase2 | fractional.go:299 | strconv.ParseUint base 2 gives the binary value, within the bit size |
| Fractional.DecodedValue | fractional.go:298-299 | the decoded output string is binary, with value the output bits read LSB first |
| Fractional.ParseDecoded | fractional.go:298-300 | parsing the decoded output with mod bits gives that value, or fails when it does not fit |
| Fractional.Compare | fractional.go:299-301 | parse failure iff the value needs more than mod bits; otherwise true iff uint32(value) < prob |
| Fractional.Test | fractional.go:235-302 | false for a key size other than 8 or 24; otherwise TestOutcome |
| Fractional.EvaluateAndCompare | fractional.go:289-301 | unpack, evaluate, decode and compare, as EvaluationOutcome |
| Fractional.ZeroProbRejects | fractional.go:301 | a key with prob 0 never accepts |
| Fractional.RecoveredLabels | fractional.go:146-153 | Test recovers from a transcript the garbled label of slot bit idx of prob of each recipient wire (with fractional.go lines 269-280) |
| Fractional.OwnLabels | fractional.go:167-170 | the sender labels read back are the labels of the bits of x (with fractional.go lines 282-287) |
| Fractional.TestRecoversLabels | fractional.go:143-178 | reading a Flag transcript, Test assembles the honest encoding of (x's bits, prob's bits) and the packed circuit (with fractional.go lines 254-287) |
| Fractional.TranscriptReadsBack | fractional.go:177 | the packed circuit in a transcript unpacks to the garbled tables (with fractional.go lines 289-292) |
| Fractional.HonestOutputs | fractional.go:293-298 | evaluating the honest encoding succeeds and its output bits are the plaintext circuit's outputs |
| Fractional.TestOfTranscript | fractional.go:113-180 | Test of a Flag transcript equals comparing the plaintext circuit output on (x's bits, prob's bits) with prob (with fractional.go lines 235-302) |

## Left out

- Elliptic-curve arithmetic, SHA-256, BLAKE2b and point marshalling are uninterpreted function values; nothing is proved across the group law.
- ElGamal.Correctness: assumes the shared points and Z agree (r·pk_i = sk_i·U, v·P + Y·U = z·P) rather than deriving this from the group law.
- Fractional.TestOfTranscript: assumes the recipient's shared points agree with the sender's (SharedPoints) rather than deriving this from the group law.
- JSON encoding and decoding of the power-of-two ciphertext (elGamal.go:100-101, 187-188): the ciphertext is a record; ElGamal.Flag therefore also stands for TheoreticalFlag, which returns that record.
- Key persistence (JsonifySK, MarshalSK in elGamal.go and the empty stubs in fractional.go): file I/O and a text format.
- Opening circuit files and CIRCUITFILES: the parsed circuit is a parameter of Fractional.Flag and Fractional.Test.
- Fractional.Extract: the float64 bound int(math.Pow(2, numKeys/2)) is the exact integer 2^(numKeys/2). The two agree while numKeys/2 < 63. From 63 on, Go's conversion of an out-of-range float64 to int is implementation-defined, so the model's bound is not what Go computes. Only numKeys = 16 and 48 come out of KeyGen, giving 2^8 and 2^24. A negative numKeys/2 gives a bound below 1 in Go and failure in the model, which agree.
- fmt.Printf diagnostics, and efficientSerializeMeasure and main in elGamal.go (measurement code).
- toygarble/utils.go CryptoSource: the garbler's generator is an abstract byte stream.
- GetInputWireLabels and getIsStructuredLabel: one-line accessors, used inline.
- scheme.go's FuzzyScheme interface: its Extract signature matches neither scheme, so no interface is modelled; the types are.
- The test files, the Python scripts and the CBMC-GC C sources: tests, developer scripts and circuit-compiler inputs, not runtime code.
- Go integer widths: ints are unbounded apart from the uint32 prob (explicit wrap), 1 << k (explicit) and bytes; strconv.Atoi out-of-range errors are not modelled.
- Evaluate.EvaluateCircuit: states its output labels for valid circuits only, because the reference semantics needs acyclicity; Go evaluates any circuit, and on an invalid one the model only promises termination, failure on a wrong input count or no outputs, and one result label per output.
- Evaluate.EvaluateGarbledGate: its value claims hold for valid circuits only; on other circuits the method is proved to terminate and to keep its cache consistent, not to agree with a reference.
- Fractional.Test: states its outcome for valid circuits only, because the reference semantics needs acyclicity.
- Evaluate.GarbledValueCorrect: proved for circuits whose gates have exactly their type's arity and can all be garbled, as the parser and the garbler produce them.
- Fractional.Flag: the garbled labels and tables are ghost outputs standing for the random choices made while garbling; the transcript is stated in terms of them.
- Go panics (index out of range, check(err), nil dereference) are failure results rather than crashes.
