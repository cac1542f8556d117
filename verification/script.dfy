/** src/script.c: the Lua glue's pure parts: the package-path rewrite, the
    argument-count check, the ROM poke/peek range checks, the choice of a
    script from scripts.json and the outcome of script_begin. The Lua VM,
    the file system and the JSON decoder are the host's; their outcomes are
    parameters here. */
module Script {
  import opened Bits
  import opened Text
  import opened Json

  const LuaExt: string := ".lua"
  const ShortExt: string := ".l"

  /** The rewrite loop of set_package_path_l: scanning left to right, each
      ".lua" becomes ".l" and scanning resumes after it; every other byte is
      copied. */
  function RewritePath(p: string): (r: string)
    ensures |r| == |p| - 2 * Replacements(p)
    decreases |p|
  {
    if |p| == 0 then []
    else if |p| >= 4 && p[..4] == LuaExt then ShortExt + RewritePath(p[4..])
    else [p[0]] + RewritePath(p[1..])
  }

  /** How many ".lua" the scan replaces. */
  function Replacements(p: string): (n: nat)
    ensures 4 * n <= |p|
    decreases |p|
  {
    if |p| == 0 then 0
    else if |p| >= 4 && p[..4] == LuaExt then 1 + Replacements(p[4..])
    else Replacements(p[1..])
  }

  /** Every replacement shortens the path by two. */
  lemma {:induction false} RewriteLength(p: string)
    ensures |RewritePath(p)| == |p| - 2 * Replacements(p)
    decreases |p|
  {
    if |p| == 0 {
    } else if |p| >= 4 && p[..4] == LuaExt {
      RewriteLength(p[4..]);
    } else {
      RewriteLength(p[1..]);
    }
  }

  /** The buffer of 2 * strlen(path) bytes holds the output and its NUL
      exactly when the path is not empty: an empty path gets a zero-byte
      buffer and the terminator does not fit. */
  lemma BufferFits(p: string)
    ensures |RewritePath(p)| + 1 <= 2 * |p| <==> |p| > 0
  {
    RewriteLength(p);
  }

  /** A stretch with no ".lua" starting in it is copied unchanged. */
  lemma {:induction false} RewriteCopies(a: string, b: string)
    requires forall i | 0 <= i < |a| :: !OccursAt(a + b, LuaExt, i)
    ensures RewritePath(a + b) == a + RewritePath(b)
    decreases |a|
  {
    if |a| > 0 {
      var p := a + b;
      assert !OccursAt(p, LuaExt, 0);
      assert |p| >= 4 ==> p[..4] == p[0..4];
      RewriteSkips(p);
      CopiesTail(a, b);
      RewriteCopies(a[1..], b);
      var rest := RewritePath(b);
      assert a == [a[0]] + a[1..];
      assert a + rest == [a[0]] + (a[1..] + rest);
    } else {
      assert a + b == b && a + RewritePath(b) == RewritePath(b);
    }
  }

  /** A byte that does not start ".lua" is copied and the scan moves on. */
  lemma RewriteSkips(p: string)
    requires |p| > 0 && !(|p| >= 4 && p[..4] == LuaExt)
    ensures RewritePath(p) == [p[0]] + RewritePath(p[1..])
  {
  }

  /** Dropping the first byte of the stretch keeps it free of ".lua". */
  lemma CopiesTail(a: string, b: string)
    requires |a| > 0
    requires forall i | 0 <= i < |a| :: !OccursAt(a + b, LuaExt, i)
    ensures (a + b)[1..] == a[1..] + b
    ensures forall i | 0 <= i < |a[1..]| :: !OccursAt(a[1..] + b, LuaExt, i)
  {
    var p := a + b;
    assert p[1..] == a[1..] + b;
    forall i | 0 <= i < |a[1..]|
      ensures !OccursAt(a[1..] + b, LuaExt, i)
    {
      assert !OccursAt(p, LuaExt, i + 1);
      if i + 4 <= |p[1..]| {
        assert p[1..][i..i + 4] == p[i + 1..i + 5];
      }
    }
  }

  /** A ".lua" at the scan position becomes ".l". */
  lemma RewriteReplaces(b: string)
    ensures RewritePath(LuaExt + b) == ShortExt + RewritePath(b)
  {
    assert (LuaExt + b)[..4] == LuaExt;
    assert (LuaExt + b)[4..] == b;
  }

  /** A path without ".lua" is left as it is. */
  lemma RewriteWithoutLua(p: string)
    requires forall i | 0 <= i < |p| :: !OccursAt(p, LuaExt, i)
    ensures RewritePath(p) == p
  {
    assert p + [] == p;
    RewriteCopies(p, []);
  }

  /** lua_check_args: the argument count lies in [min, max]. */
  predicate CheckArgs(argc: int, min: int, max: int) {
    min <= argc && argc <= max
  }

  /** The ROM size the bank mask implies: 0x4000 bytes a bank. */
  function RomSize(bankMask: nat): nat {
    0x4000 * (bankMask + 1)
  }

  /** The outcome of a ROM call. `PokeOverrun` / `PeekOverrun` stand for a
      write or read at an address the range check lets through but the
      loaded ROM buffer does not hold: undefined behaviour in C. */
  datatype PokeResult = Poked(rom: seq<byte>) | PokeError(msg: string) | PokeOverrun(addr: nat)
  datatype PeekResult = Peeked(value: byte) | PeekError(msg: string) | PeekOverrun(addr: nat)

  const PokeUsage: string := "pgb.rom_poke(addr, value) takes two arguments"
  const PeekUsage: string := "pgb.rom_peek(addr) takes one argument"
  const PokeRange: string := "pgb.rom_poke: addr out of range"
  const PeekRange: string := "pgb.rom_peek: addr out of range"

  /** Assignment of a Lua integer to a C int: the low 32 bits, signed. */
  function LuaToInt(x: int): (r: int)
    ensures -0x8000_0000 <= r < 0x8000_0000
    ensures (r - x) % 0x1_0000_0000 == 0
    ensures -0x8000_0000 <= x < 0x8000_0000 ==> r == x
  {
    var w := Wrap32(x);
    assert (ToInt32(w) - x) % 0x1_0000_0000 == ((ToInt32(w) - w) + (w - x)) % 0x1_0000_0000;
    assert -0x8000_0000 <= x < 0 ==> w == x + 0x1_0000_0000;
    ToInt32(w)
  }

  /** A wrong argument count is the first thing the ROM calls check: it
      raises the usage error whatever the arguments are, as written and
      corrected alike. */
  lemma ArgCountChecked(rom: seq<byte>, bankMask: nat, args: seq<int>)
    ensures CheckArgs(|args|, 2, 2) <==> |args| == 2
    ensures !CheckArgs(|args|, 2, 2) ==> RomPoke(rom, bankMask, args) == PokeError(PokeUsage)
    ensures !CheckArgs(|args|, 1, 1) ==> RomPeek(rom, bankMask, args) == PeekError(PeekUsage)
    ensures !CheckArgs(|args|, 2, 2) ==> RomPokeChecked(rom, bankMask, args) == PokeError(PokeUsage)
    ensures !CheckArgs(|args|, 1, 1) ==> RomPeekChecked(rom, bankMask, args) == PeekError(PeekUsage)
  {
  }

  /** pgb.rom_poke(addr, value) as written: two arguments and addr below the
      size the cartridge header's bank mask implies let the byte at addr take
      the value truncated to 8 bits; anything else raises a Lua error and
      leaves the ROM alone. The check never looks at the size of the loaded
      ROM buffer, so an address past it is written anyway (an overrun). */
  function RomPoke(rom: seq<byte>, bankMask: nat, args: seq<int>): (r: PokeResult)
    ensures r.PokeError? <==> |args| != 2 || !(0 <= LuaToInt(args[0]) < RomSize(bankMask))
    ensures r.PokeOverrun? <==> |args| == 2 && |rom| <= LuaToInt(args[0]) < RomSize(bankMask)
    ensures r.PokeOverrun? ==> r.addr == LuaToInt(args[0])
    ensures r.Poked? ==> |r.rom| == |rom|
                         && r.rom[LuaToInt(args[0])] == Wrap8(LuaToInt(args[1]))
                         && forall k | 0 <= k < |rom| && k != LuaToInt(args[0]) :: r.rom[k] == rom[k]
  {
    if !CheckArgs(|args|, 2, 2) then PokeError(PokeUsage)
    else
      var addr := LuaToInt(args[0]);
      var value := LuaToInt(args[1]);
      if addr < 0 || addr >= RomSize(bankMask) then PokeError(PokeRange)
      else if addr >= |rom| then PokeOverrun(addr)
      else Poked(rom[addr := Wrap8(value)])
  }

  /** pgb.rom_peek(addr) as written: one argument and addr below the
      header's ROM size give the byte there, or read past a shorter buffer;
      anything else raises a Lua error. */
  function RomPeek(rom: seq<byte>, bankMask: nat, args: seq<int>): (r: PeekResult)
    ensures r.PeekError? <==> |args| != 1 || !(0 <= LuaToInt(args[0]) < RomSize(bankMask))
    ensures r.PeekOverrun? <==> |args| == 1 && |rom| <= LuaToInt(args[0]) < RomSize(bankMask)
    ensures r.PeekOverrun? ==> r.addr == LuaToInt(args[0])
    ensures r.Peeked? ==> r.value == rom[LuaToInt(args[0])]
  {
    if !CheckArgs(|args|, 1, 1) then PeekError(PeekUsage)
    else
      var addr := LuaToInt(args[0]);
      if addr < 0 || addr >= RomSize(bankMask) then PeekError(PeekRange)
      else if addr >= |rom| then PeekOverrun(addr)
      else Peeked(rom[addr])
  }

  /** A ROM file shorter than its header claims: the first address past the
      buffer passes the range check, and both calls go past the buffer. */
  lemma ShortRomOverruns(rom: seq<byte>, bankMask: nat, value: int)
    requires |rom| < RomSize(bankMask) <= 0x8000_0000
    ensures RomPoke(rom, bankMask, [|rom|, value]) == PokeOverrun(|rom|)
    ensures RomPeek(rom, bankMask, [|rom|]) == PeekOverrun(|rom|)
  {
  }

  /** The limit the range check is evidently meant to enforce: the ROM size,
      but never past the bytes actually loaded. */
  function RomLimit(rom: seq<byte>, bankMask: nat): (n: nat)
    ensures n <= |rom| && n <= RomSize(bankMask)
    ensures n == |rom| || n == RomSize(bankMask)
  {
    if |rom| < RomSize(bankMask) then |rom| else RomSize(bankMask)
  }

  /** pgb.rom_poke with the range check taken against RomLimit. */
  function RomPokeChecked(rom: seq<byte>, bankMask: nat, args: seq<int>): (r: PokeResult)
    ensures !r.PokeOverrun?
    ensures r.Poked? <==> |args| == 2 && 0 <= LuaToInt(args[0]) < RomLimit(rom, bankMask)
    ensures r.Poked? ==> |r.rom| == |rom|
                         && r.rom[LuaToInt(args[0])] == Wrap8(LuaToInt(args[1]))
                         && forall k | 0 <= k < |rom| && k != LuaToInt(args[0]) :: r.rom[k] == rom[k]
  {
    if !CheckArgs(|args|, 2, 2) then PokeError(PokeUsage)
    else
      var addr := LuaToInt(args[0]);
      if addr < 0 || addr >= RomLimit(rom, bankMask) then PokeError(PokeRange)
      else Poked(rom[addr := Wrap8(LuaToInt(args[1]))])
  }

  /** pgb.rom_peek with the range check taken against RomLimit. */
  function RomPeekChecked(rom: seq<byte>, bankMask: nat, args: seq<int>): (r: PeekResult)
    ensures !r.PeekOverrun?
    ensures r.Peeked? <==> |args| == 1 && 0 <= LuaToInt(args[0]) < RomLimit(rom, bankMask)
    ensures r.Peeked? ==> r.value == rom[LuaToInt(args[0])]
  {
    if !CheckArgs(|args|, 1, 1) then PeekError(PeekUsage)
    else
      var addr := LuaToInt(args[0]);
      if addr < 0 || addr >= RomLimit(rom, bankMask) then PeekError(PeekRange)
      else Peeked(rom[addr])
  }

  /** The corrected calls never overrun, and where the buffer holds the
      whole ROM the header promises they are exactly the calls as written;
      on a short buffer they differ only where the written ones overrun,
      which becomes the range error. */
  lemma CheckedAgrees(rom: seq<byte>, bankMask: nat, args: seq<int>)
    ensures |rom| >= RomSize(bankMask) ==>
              RomPokeChecked(rom, bankMask, args) == RomPoke(rom, bankMask, args)
              && RomPeekChecked(rom, bankMask, args) == RomPeek(rom, bankMask, args)
    ensures RomPoke(rom, bankMask, args).PokeOverrun? ==> RomPokeChecked(rom, bankMask, args) == PokeError(PokeRange)
    ensures !RomPoke(rom, bankMask, args).PokeOverrun? ==> RomPokeChecked(rom, bankMask, args) == RomPoke(rom, bankMask, args)
    ensures RomPeek(rom, bankMask, args).PeekOverrun? ==> RomPeekChecked(rom, bankMask, args) == PeekError(PeekRange)
    ensures !RomPeek(rom, bankMask, args).PeekOverrun? ==> RomPeekChecked(rom, bankMask, args) == RomPeek(rom, bankMask, args)
  {
  }

  /** A peek after a poke at the same address reads the poked byte. */
  lemma PeekAfterPoke(rom: seq<byte>, bankMask: nat, addr: int, value: int)
    requires RomSize(bankMask) <= 0x8000_0000 && 0 <= addr < RomLimit(rom, bankMask)
    ensures var p := RomPokeChecked(rom, bankMask, [addr, value]);
            p.Poked? && RomPeekChecked(p.rom, bankMask, [addr]) == Peeked(Wrap8(value))
  {
    var v := LuaToInt(value);
    var k := (v - value) / 0x1_0000_0000;
    assert v == value + 0x1_0000_0000 * k;
    var q := value / 0x100;
    assert v == 0x100 * (q + 0x100_0000 * k) + value % 0x100;
    ModUnique(v, 0x100, q + 0x100_0000 * k, value % 0x100);
  }

  /** An address outside the ROM, or past the loaded bytes, leaves the ROM
      untouched, whatever the value. */
  lemma PokeOutOfRange(rom: seq<byte>, bankMask: nat, addr: int, value: int)
    requires (addr < 0 || addr >= RomLimit(rom, bankMask)) && -0x8000_0000 <= addr < 0x8000_0000
    ensures RomPokeChecked(rom, bankMask, [addr, value]) == PokeError(PokeRange)
  {
  }

  /** The snprintf into a 1024-byte buffer keeps at most 1023 characters. */
  const PathBufferSize: nat := 1024

  /** The path a matched script is loaded from: the value itself on the
      device, "Source/" + value (cut to fit the buffer) in the simulator. */
  function ScriptPath(onDevice: bool, value: string): (r: string)
    ensures onDevice ==> r == value
    ensures !onDevice ==> |r| < PathBufferSize && |r| <= |value| + 7 && r == ("Source/" + value)[..|r|]
    ensures !onDevice && |value| + 7 < PathBufferSize ==> r == "Source/" + value
    ensures !onDevice && |value| + 7 >= PathBufferSize ==> |r| == PathBufferSize - 1
  {
    if onDevice then value
    else
      var full := "Source/" + value;
      if |full| < PathBufferSize then full else full[..PathBufferSize - 1]
  }

  /** didDecodeTableValue over the reports of scripts.json, from the
      context's current match on: the first "script" string wins, later ones
      and every "name" report change nothing. */
  function MatchScript(matched: Option<string>, reports: seq<(string, JsonValue)>, onDevice: bool)
    : (r: Option<string>)
    ensures matched.Some? ==> r == matched
    decreases |reports|
  {
    if |reports| == 0 then matched
    else
      var (key, v) := reports[0];
      var next := if key == "script" && v.JString? && matched.None? then Some(ScriptPath(onDevice, v.s)) else matched;
      MatchScript(next, reports[1..], onDevice)
  }

  predicate IsScriptReport(report: (string, JsonValue)) {
    report.0 == "script" && report.1.JString?
  }

  /** The match is the path of the first script report, and there is none
      when no report is a script string. */
  lemma {:induction false} FirstScriptWins(reports: seq<(string, JsonValue)>, onDevice: bool)
    ensures var r := MatchScript(None, reports, onDevice);
            && (r.None? <==> forall i | 0 <= i < |reports| :: !IsScriptReport(reports[i]))
            && (r.Some? ==> exists i | 0 <= i < |reports| ::
                  && IsScriptReport(reports[i])
                  && (forall j | 0 <= j < i :: !IsScriptReport(reports[j]))
                  && r.value == ScriptPath(onDevice, reports[i].1.s))
    decreases |reports|
  {
    if |reports| > 0 {
      if IsScriptReport(reports[0]) {
        assert IsScriptReport(reports[0]);
      } else {
        FirstScriptWins(reports[1..], onDevice);
        var r := MatchScript(None, reports, onDevice);
        if r.Some? {
          var i :| 0 <= i < |reports[1..]| && IsScriptReport(reports[1..][i])
                   && (forall j | 0 <= j < i :: !IsScriptReport(reports[1..][j]))
                   && r.value == ScriptPath(onDevice, reports[1..][i].1.s);
          assert reports[i + 1] == reports[1..][i];
          assert forall j | 1 <= j < i + 1 :: reports[j] == reports[1..][j - 1];
        } else {
          assert forall i | 1 <= i < |reports| :: reports[i] == reports[1..][i - 1];
        }
      }
    }
  }

  /** A "name" report, matching or not, does not change the choice. */
  lemma {:induction false} NameIgnored(matched: Option<string>, pre: seq<(string, JsonValue)>,
                                       v: JsonValue, post: seq<(string, JsonValue)>, onDevice: bool)
    ensures MatchScript(matched, pre + [("name", v)] + post, onDevice) == MatchScript(matched, pre + post, onDevice)
    decreases |pre|
  {
    if |pre| == 0 {
      assert pre + [("name", v)] + post == [("name", v)] + post;
      assert ([("name", v)] + post)[1..] == post;
      assert pre + post == post;
    } else {
      var (key, w) := pre[0];
      var next := if key == "script" && w.JString? && matched.None? then Some(ScriptPath(onDevice, w.s)) else matched;
      NameIgnored(next, pre[1..], v, post, onDevice);
      assert (pre + [("name", v)] + post)[1..] == pre[1..] + [("name", v)] + post;
      assert (pre + post)[1..] == pre[1..] + post;
    }
  }

  /** script_begin: the script to run (standing for the Lua state), or None
      (NULL) when scripts.json does not open, does not decode, names no
      script, or the script fails to load. */
  function ScriptBegin(jsonOpened: bool, decodeOk: bool, reports: seq<(string, JsonValue)>,
                       onDevice: bool, loadOk: bool): (r: Option<string>)
    ensures r.Some? <==> jsonOpened && decodeOk && loadOk && MatchScript(None, reports, onDevice).Some?
    ensures r.Some? ==> r == MatchScript(None, reports, onDevice)
  {
    if !jsonOpened then None
    else
      var matched := MatchScript(None, reports, onDevice);
      if !decodeOk || matched.None? then None
      else if !loadOk then None
      else matched
  }
}
