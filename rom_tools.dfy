/*
 * The two ROM maintenance scripts of tools/: inject_wozmon.py copies a
 * monitor binary into a ROM image at file offset 0x7F00, and patch_rom.py
 * writes a three-byte `JMP $FF24` at file offset 0x7F08. The host file system
 * is a map from path to contents; a script's run is its exit status and the
 * file system it leaves.
 */
module RomTools {
  import opened Bits
  import InstructionSet

  type Path = string
  type FileSystem = map<Path, seq<bv8>>

  datatype Outcome = Outcome(exitCode: int, files: FileSystem)

  /** File offset 0x7F00 is CPU address 0xFF00 once the image is loaded at 0x8000. */
  const INJECT_OFFSET: nat := 0x7F00
  const PATCH_OFFSET: nat := 0x7F00 + 0x08
  /** `JMP $FF24`: opcode, then the target's low and high bytes. */
  const PATCH: seq<bv8> := [0x4C, 0x24, 0xFF]

  // ---------------------------------------------------------------
  // inject_wozmon.py
  // ---------------------------------------------------------------

  /** The ROM image with `payload` laid over it from 0x7F00 on, cut off at the image's end. */
  function Injected(rom: seq<bv8>, payload: seq<bv8>): (r: seq<bv8>)
    ensures |r| == |rom|
    ensures forall k :: INJECT_OFFSET <= k < |rom| && k - INJECT_OFFSET < |payload| ==> r[k] == payload[k - INJECT_OFFSET]
    ensures forall k :: 0 <= k < |rom| && !(INJECT_OFFSET <= k < INJECT_OFFSET + |payload|) ==> r[k] == rom[k]
  {
    seq(|rom|, k requires 0 <= k < |rom| =>
      if INJECT_OFFSET <= k && k - INJECT_OFFSET < |payload| then payload[k - INJECT_OFFSET] else rom[k])
  }

  /** Injecting the same payload twice gives the image that injecting it once gives. */
  lemma InjectIsIdempotent(rom: seq<bv8>, payload: seq<bv8>)
    ensures Injected(Injected(rom, payload), payload) == Injected(rom, payload)
  {
  }

  /** When the payload fits, it can be read back whole from 0x7F00. */
  lemma InjectedPayloadReadsBack(rom: seq<bv8>, payload: seq<bv8>)
    requires INJECT_OFFSET + |payload| <= |rom|
    ensures Injected(rom, payload)[INJECT_OFFSET..INJECT_OFFSET + |payload|] == payload
  {
  }

  /** The ROM path: the second argument, or src/wozmon/rom.bin under the repository root. */
  function RomPath(args: seq<string>, repoRoot: Path): (p: Path)
    ensures |args| > 2 ==> p == args[2]
    ensures |args| <= 2 ==> p == repoRoot + "/src/wozmon/rom.bin"
  {
    if |args| > 2 then args[2] else repoRoot + "/src/wozmon/rom.bin"
  }

  /**
   * One run of the injector with command line `args` (`args[0]` is the script).
   * Without a payload argument it exits 2; with a missing file it exits 1;
   * otherwise it copies the payload byte by byte, dropping what falls past the
   * image's end, and writes the image back.
   */
  method InjectWozmon(args: seq<string>, fs: FileSystem, repoRoot: Path) returns (out: Outcome)
    ensures |args| < 2 ==> out == Outcome(2, fs)
    ensures |args| >= 2 && (args[1] !in fs || RomPath(args, repoRoot) !in fs) ==> out == Outcome(1, fs)
    ensures |args| >= 2 && args[1] in fs && RomPath(args, repoRoot) in fs ==>
      out == Outcome(0, fs[RomPath(args, repoRoot) := Injected(fs[RomPath(args, repoRoot)], fs[args[1]])])
  {
    if |args| < 2 {
      return Outcome(2, fs);
    }
    var woz := args[1];
    var rom := RomPath(args, repoRoot);
    if woz !in fs || rom !in fs {
      return Outcome(1, fs);
    }
    var b := fs[rom];
    var wb := fs[woz];
    var i := 0;
    while i < |wb|
      invariant 0 <= i <= |wb| && |b| == |fs[rom]|
      invariant b == Injected(fs[rom], wb[..i])
    {
      if INJECT_OFFSET + i < |b| {
        b := b[INJECT_OFFSET + i := wb[i]];
      }
      i := i + 1;
    }
    assert wb[..i] == wb;
    return Outcome(0, fs[rom := b]);
  }

  // ---------------------------------------------------------------
  // patch_rom.py
  // ---------------------------------------------------------------

  const PATCH_ROM_PATH: Path := "src/wozmon/rom.bin"

  /** The image with the three patch bytes at 0x7F08. */
  function Patched(data: seq<bv8>): (r: seq<bv8>)
    requires |data| >= PATCH_OFFSET + |PATCH|
    ensures |r| == |data|
    ensures r[PATCH_OFFSET..PATCH_OFFSET + |PATCH|] == PATCH
    ensures forall k :: 0 <= k < |data| && !(PATCH_OFFSET <= k < PATCH_OFFSET + |PATCH|) ==> r[k] == data[k]
  {
    data[..PATCH_OFFSET] + PATCH + data[PATCH_OFFSET + |PATCH|..]
  }

  /**
   * One run of the patcher. A missing ROM exits 1 and one shorter than 0x7F0B
   * bytes exits 2; an image that already holds the patch is left alone; any
   * other image gets the patch. Only a real patch writes the file.
   */
  function PatchRom(fs: FileSystem): (out: Outcome)
    ensures PATCH_ROM_PATH !in fs ==> out == Outcome(1, fs)
    ensures PATCH_ROM_PATH in fs && |fs[PATCH_ROM_PATH]| < PATCH_OFFSET + |PATCH| ==> out == Outcome(2, fs)
    ensures PATCH_ROM_PATH in fs && |fs[PATCH_ROM_PATH]| >= PATCH_OFFSET + |PATCH| ==>
      out == Outcome(0, fs[PATCH_ROM_PATH := Patched(fs[PATCH_ROM_PATH])])
    ensures out.exitCode == 0 <==> PATCH_ROM_PATH in fs && |fs[PATCH_ROM_PATH]| >= PATCH_OFFSET + |PATCH|
    ensures out.files.Keys == fs.Keys
  {
    if PATCH_ROM_PATH !in fs then Outcome(1, fs)
    else
      var data := fs[PATCH_ROM_PATH];
      if |data| < PATCH_OFFSET + |PATCH| then Outcome(2, fs)
      else if data[PATCH_OFFSET..PATCH_OFFSET + |PATCH|] == PATCH then
        PatchedAlready(data);
        Outcome(0, fs)
      else Outcome(0, fs[PATCH_ROM_PATH := Patched(data)])
  }

  /** An image already holding the patch is its own patched image. */
  lemma PatchedAlready(data: seq<bv8>)
    requires |data| >= PATCH_OFFSET + |PATCH|
    requires data[PATCH_OFFSET..PATCH_OFFSET + |PATCH|] == PATCH
    ensures Patched(data) == data
  {
    assert data == data[..PATCH_OFFSET] + data[PATCH_OFFSET..PATCH_OFFSET + |PATCH|] + data[PATCH_OFFSET + |PATCH|..];
  }

  /** Running the patcher a second time finds the patch in place, exits 0 and writes nothing. */
  lemma PatchIsIdempotent(fs: FileSystem)
    requires PATCH_ROM_PATH in fs && |fs[PATCH_ROM_PATH]| >= PATCH_OFFSET + |PATCH|
    ensures PatchRom(PatchRom(fs).files) == Outcome(0, PatchRom(fs).files)
  {
    var once := PatchRom(fs).files;
    assert once[PATCH_ROM_PATH][PATCH_OFFSET..PATCH_OFFSET + |PATCH|] == PATCH;
  }

  /** The patch is a three-byte absolute JMP to 0xFF24, in the 6502's little-endian order. */
  lemma PatchIsJmpFF24()
    ensures InstructionSet.GetMetadata(PATCH[0]).mnemonic == "JMP"
    ensures InstructionSet.GetMetadata(PATCH[0]).addressingMode == "Absolute"
    ensures MakeWord(PATCH[1], PATCH[2]) == 0xFF24
  {
    InstructionSet.EntryInRow(0x4C);
    assert InstructionSet.OPCODES[0x4C] == InstructionSet.ROW_4[12];
    var w := MakeWord(PATCH[1], PATCH[2]);
    assert w == 0x24 + 256 * 0xFF;
  }
}
