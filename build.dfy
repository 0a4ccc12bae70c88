/** Where `compile_fmu` (src/autofmu/utils.py) puts the compiled library in
    the archive: a `build/` directory named after the host platform and its
    pointer width. The host facts (`sys.maxsize`, `platform.system()`) and
    the library file found by the build are parameters. */
module Build {
  import opened Wrappers
  import opened Decimal
  import opened Paths
  import opened Slug

  /** `64 if sys.maxsize > 2 ** 32 else 32`. */
  function PointerBits(maxSize: nat): (bits: nat)
    ensures bits == 64 <==> maxSize > 0x1_0000_0000
    ensures bits == 32 <==> maxSize <= 0x1_0000_0000
  {
    if maxSize > 0x1_0000_0000 then 64 else 32
  }

  /** The platform part of the directory: `win` on Windows, otherwise the
      lowercased system name. */
  function SystemTag(system: string, u: UnicodeDb): string {
    if system == "Windows" then "win" else u.lower(system)
  }

  /** `build/win{arch}` on Windows, `build/{system.lower()}{arch}` elsewhere. */
  function PlatformDir(system: string, maxSize: nat, u: UnicodeDb): string {
    "build/" + SystemTag(system, u) + DecimalString(PointerBits(maxSize))
  }

  /** `f"{build_dir}/{library.name}"`, the archive path of the library. */
  function LibraryEntryPath(system: string, maxSize: nat, libraryPath: string, u: UnicodeDb): (path: string)
  {
    PlatformDir(system, maxSize, u) + "/" + Basename(libraryPath)
  }

  /** The entry path names the library file itself, and its directory is the
      platform directory. */
  lemma LibraryEntrySplits(system: string, maxSize: nat, libraryPath: string, u: UnicodeDb)
    ensures Basename(LibraryEntryPath(system, maxSize, libraryPath, u)) == Basename(libraryPath)
  {
    var dir, name := PlatformDir(system, maxSize, u), Basename(libraryPath);
    BasenameOfJoin(dir, name);
  }

  /** The pointer width can be read back from the end of the directory name. */
  lemma PlatformDirEndsInBits(system: string, maxSize: nat, u: UnicodeDb)
    ensures var dir := PlatformDir(system, maxSize, u);
      && |dir| >= 8
      && ParseDecimal(dir[|dir| - 2..]) == Some(PointerBits(maxSize))
      && (dir[|dir| - 2..] == "64" <==> maxSize > 0x1_0000_0000)
  {
    var dir := PlatformDir(system, maxSize, u);
    var bits := PointerBits(maxSize);
    ParseDecimalString(bits);
    assert DecimalString(bits) == if bits == 64 then "64" else "32";
    assert dir[|dir| - 2..] == DecimalString(bits);
  }

  /** The rule spelled out: `build/`, then `win` on Windows or the lowercased
      system name elsewhere, then `64` exactly when `maxsize > 2 ** 32` and
      `32` otherwise. */
  lemma PlatformDirRule(system: string, maxSize: nat, u: UnicodeDb)
    ensures PlatformDir(system, maxSize, u)
      == "build/" + (if system == "Windows" then "win" else u.lower(system))
         + (if maxSize > 0x1_0000_0000 then "64" else "32")
  {
    assert DecimalString(64) == "64";
    assert DecimalString(32) == "32";
  }

  /** A 64-bit Linux host, with `str.lower` acting on the ASCII name as it does. */
  lemma Linux64Dir(maxSize: nat, u: UnicodeDb)
    requires maxSize > 0x1_0000_0000 && u.lower("Linux") == "linux"
    ensures PlatformDir("Linux", maxSize, u) == "build/linux64"
  {
    assert DecimalString(64) == "64";
  }

  /** Only Windows gets the `win` tag: a system whose lowercased name is not
      `win` can never share a directory with Windows. */
  lemma NonWindowsDistinct(system: string, maxSize: nat, u: UnicodeDb)
    requires system != "Windows" && u.lower(system) != "win"
    ensures PlatformDir(system, maxSize, u) != PlatformDir("Windows", maxSize, u)
  {
    var d1, d2 := PlatformDir(system, maxSize, u), PlatformDir("Windows", maxSize, u);
    var b := DecimalString(PointerBits(maxSize));
    var lowered := u.lower(system);
    assert |b| == 2 by { PlatformDirRule(system, maxSize, u); }
    assert d1 == "build/" + lowered + b;
    assert d2 == "build/" + "win" + b;
    assert d1[6..|d1| - 2] == lowered;
    assert d2[6..|d2| - 2] == "win";
  }
}
