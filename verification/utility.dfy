/** src/utility.c: the filename helpers and the game-list sort. */
module Utility {
  import opened Text

  const SavesPath: string := "saves"
  const GamesPath: string := "games"

  /** The bytes pgb_sanitize_string_for_filename replaces. */
  const Unsafe: string := " ()[]{}!?:;,&'"

  /** The string every byte of s goes through sanitising to: each byte of
      Unsafe becomes '_', every other byte stays. */
  function Sanitized(s: string): (r: string)
    ensures |r| == |s|
    ensures forall i | 0 <= i < |s| :: s[i] in Unsafe ==> r[i] == '_'
    ensures forall i | 0 <= i < |s| :: s[i] !in Unsafe ==> r[i] == s[i]
    decreases |s|
  {
    if |s| == 0 then []
    else Sanitized(s[..|s| - 1]) + [if s[|s| - 1] in Unsafe then '_' else s[|s| - 1]]
  }

  /** pgb_sanitize_string_for_filename: the in-place pass over the bytes
      up to the terminator; a NULL string is left alone. */
  method Sanitize(str: Option<string>) returns (r: Option<string>)
    ensures str.None? ==> r.None?
    ensures str.Some? ==> r == Some(Sanitized(str.value))
  {
    if str.None? {
      return None;
    }
    var s := str.value;
    var p := 0;
    while p < |s|
      invariant 0 <= p <= |s| == |str.value|
      invariant s[..p] == Sanitized(str.value[..p])
      invariant s[p..] == str.value[p..]
    {
      var ch := s[p];
      if ch == ' ' || ch == '(' || ch == ')' || ch == '[' || ch == ']' ||
         ch == '{' || ch == '}' || ch == '!' || ch == '?' || ch == ':' ||
         ch == ';' || ch == ',' || ch == '&' || ch == '\'' {
        s := s[p := '_'];
      }
      assert str.value[..p + 1] == str.value[..p] + [str.value[p]];
      assert s[..p + 1] == s[..p] + [s[p]];
      p := p + 1;
    }
    assert s == s[..p];
    assert str.value == str.value[..p];
    return Some(s);
  }

  /** '_' is not replaced, so sanitising twice is sanitising once. */
  lemma SanitizedIdempotent(s: string)
    ensures Sanitized(Sanitized(s)) == Sanitized(s)
  {
    assert '_' !in Unsafe;
  }

  /** Sanitising leaves s alone exactly when s holds no replaced byte. */
  lemma SanitizedFixpoint(s: string)
    ensures Sanitized(s) == s <==> forall i | 0 <= i < |s| :: s[i] !in Unsafe
  {
    assert '_' !in Unsafe;
  }

  /** The file name after the last '/', or the whole path without one. */
  function Basename(path: string): (r: string)
    ensures '/' !in r
    ensures |r| <= |path| && r == path[|path| - |r|..]
    ensures |r| < |path| ==> path[|path| - |r| - 1] == '/'
    ensures '/' !in path ==> r == path
  {
    match LastIndex(path, '/')
    case None => path
    case Some(i) => path[i + 1..]
  }

  /** The name without its extension: cut at the last '.', unless there is
      none or it is the first character (a dot file keeps its name). */
  function Stem(name: string): (r: string)
    ensures |r| <= |name| && r == name[..|r|]
    ensures |r| < |name| ==> 0 < |r| && name[|r|] == '.' && '.' !in name[|r| + 1..]
    ensures (forall k | 1 <= k < |name| :: name[k] != '.') ==> r == name
    ensures (exists k | 1 <= k < |name| :: name[k] == '.') ==> |r| < |name|
  {
    match LastIndex(name, '.')
    case None => name
    case Some(i) =>
      if i == 0 then name
      else name[..i]
  }

  /** " (recovery)" for a recovery save, nothing otherwise. */
  function RecoveryTag(isRecovery: bool): string {
    if isRecovery then " (recovery)" else ""
  }

  /** pgb_save_filename: "saves/" + the stem of the basename + the recovery
      tag + ".sav" (formatString "%s/%s%s.sav"). */
  function SaveFilename(path: string, isRecovery: bool): string {
    SavesPath + "/" + Stem(Basename(path)) + RecoveryTag(isRecovery) + ".sav"
  }

  /** Whatever the path, the save file lies directly in the saves
      directory and ends in ".sav". */
  lemma SaveFilenameInSaves(path: string, isRecovery: bool)
    ensures var r := SaveFilename(path, isRecovery);
            && |r| > |SavesPath| + 4 && r[..|SavesPath| + 1] == SavesPath + "/"
            && '/' !in r[|SavesPath| + 1..]
            && r[|r| - 4..] == ".sav"
  {
    var base := Basename(path);
    var stem := Stem(base);
    assert '/' !in stem by {
      assert stem == base[..|stem|];
    }
    var tag := RecoveryTag(isRecovery);
    assert '/' !in tag;
    var tail := stem + tag + ".sav";
    var r := SavesPath + "/" + tail;
    assert SaveFilename(path, isRecovery) == r;
    assert r[|SavesPath| + 1..] == tail;
  }

  /** The basename of dir/name is name, whatever dir holds. */
  lemma BasenameUnder(dir: string, name: string)
    requires '/' !in name
    ensures Basename(dir + "/" + name) == name
  {
    var path := dir + "/" + name;
    assert path[|dir|] == '/';
    assert forall k | |dir| < k < |path| :: path[k] == name[k - |dir| - 1];
    assert LastIndex(path, '/') == Some(|dir|);
    assert path[|dir| + 1..] == name;
  }

  /** The stem of stem.ext is stem when stem is not empty and ext holds no
      dot. */
  lemma StemOfExtension(stem: string, ext: string)
    requires '.' !in ext && |stem| > 0
    ensures Stem(stem + "." + ext) == stem
  {
    var name := stem + "." + ext;
    assert name[|stem|] == '.';
    assert forall k | |stem| < k < |name| :: name[k] == ext[k - |stem| - 1];
    assert LastIndex(name, '.') == Some(|stem|);
    assert name[..|stem|] == stem;
  }

  /** A ROM under some directory with a proper extension saves under its
      stem, whatever the directory. */
  lemma SaveFilenameOfRom(dir: string, stem: string, ext: string, isRecovery: bool)
    requires '/' !in stem && '/' !in ext && '.' !in ext && |stem| > 0
    ensures SaveFilename(dir + "/" + (stem + "." + ext), isRecovery)
            == SavesPath + "/" + stem + RecoveryTag(isRecovery) + ".sav"
  {
    var name := stem + "." + ext;
    assert '/' !in name;
    BasenameUnder(dir, name);
    StemOfExtension(stem, ext);
  }

  /** A file whose only dot is its first character keeps its whole name:
      "games/.gb" saves as "saves/.gb.sav". */
  lemma SaveFilenameOfDotFile(dir: string, name: string, isRecovery: bool)
    requires '/' !in name && |name| > 0 && name[0] == '.'
    requires forall k | 1 <= k < |name| :: name[k] != '.'
    ensures SaveFilename(dir + "/" + name, isRecovery)
            == SavesPath + "/" + name + RecoveryTag(isRecovery) + ".sav"
  {
    BasenameUnder(dir, name);
  }

  /** The two kinds of save never collide. */
  lemma RecoveryNameDiffers(path: string)
    ensures SaveFilename(path, true) != SaveFilename(path, false)
  {
    assert |SaveFilename(path, true)| == |SaveFilename(path, false)| + 11;
  }

  const FsErrorMarker: string := "uC-FS error: "

  /** pgb_extract_fs_error_code: the text after the first "uC-FS error: ",
      or None (NULL) when the marker does not occur. */
  function ExtractFsErrorCode(fileError: string): (r: Option<string>)
    ensures r.None? <==> forall j :: !OccursAt(fileError, FsErrorMarker, j)
    ensures r.Some? ==> exists i: nat :: OccursAt(fileError, FsErrorMarker, i)
                                       && (forall j: nat | j < i :: !OccursAt(fileError, FsErrorMarker, j))
                                       && r.value == fileError[i + |FsErrorMarker|..]
  {
    match FindFrom(fileError, FsErrorMarker, 0)
    case None => None
    case Some(i) =>
      assert OccursAt(fileError, FsErrorMarker, i);
      Some(fileError[i + |FsErrorMarker|..])
  }

  /** A library entry (PGB_Game) as PGB_Game_new derives it from the file
      name; the cover-art path is a file-system lookup and is not kept. */
  datatype Game = Game(filename: string, fullpath: string, displayName: string, cleanName: string)

  /** Every game's display name is no later, by strcmp, than the next's. */
  predicate SortedByName(s: seq<Game>) {
    forall i, j | 0 <= i < j < |s| :: Strcmp(s[i].displayName, s[j].displayName) <= 0
  }

  /** Insertion of g before the first game that does not sort before it. */
  function Insert(g: Game, s: seq<Game>): (r: seq<Game>)
    requires SortedByName(s)
    ensures SortedByName(r)
    ensures multiset(r) == multiset(s) + multiset{g}
    decreases |s|
  {
    if |s| == 0 then [g]
    else if Strcmp(g.displayName, s[0].displayName) <= 0 then
      InsertFront(g, s);
      [g] + s
    else
      StrcmpAntisymmetric(g.displayName, s[0].displayName);
      var t := Insert(g, s[1..]);
      assert s == [s[0]] + s[1..];
      FirstBelowAll(s[0], g, s[1..], t);
      [s[0]] + t
  }

  lemma InsertFront(g: Game, s: seq<Game>)
    requires SortedByName(s) && |s| > 0
    requires Strcmp(g.displayName, s[0].displayName) <= 0
    ensures SortedByName([g] + s)
  {
    forall j | 1 <= j < |s| + 1
      ensures Strcmp(g.displayName, ([g] + s)[j].displayName) <= 0
    {
      StrcmpTransitive(g.displayName, s[0].displayName, s[j - 1].displayName);
    }
  }

  /** Putting h in front of a sorted t keeps it sorted when h is no later
      than every game t was built from. */
  lemma FirstBelowAll(h: Game, g: Game, s: seq<Game>, t: seq<Game>)
    requires SortedByName([h] + s) && SortedByName(t)
    requires Strcmp(h.displayName, g.displayName) <= 0
    requires multiset(t) == multiset(s) + multiset{g}
    ensures SortedByName([h] + t)
  {
    forall j | 0 <= j < |t|
      ensures Strcmp(h.displayName, t[j].displayName) <= 0
    {
      assert t[j] in multiset(t);
      if t[j] != g {
        assert t[j] in multiset(s);
        var k :| 0 <= k < |s| && s[k] == t[j];
        assert ([h] + s)[0] == h && ([h] + s)[k + 1] == s[k];
      }
    }
  }

  /** pgb_sort_games_array: a NULL array or one of at most one game is left
      as it is; otherwise the games come out in strcmp order of their
      display names, the same games as went in. */
  method SortGames(games: Option<seq<Game>>) returns (r: Option<seq<Game>>)
    ensures games.None? ==> r.None?
    ensures games.Some? && |games.value| <= 1 ==> r == games
    ensures games.Some? ==> r.Some? && SortedByName(r.value)
    ensures games.Some? ==> multiset(r.value) == multiset(games.value)
  {
    if games.None? || |games.value| <= 1 {
      assert games.Some? ==> SortedByName(games.value);
      return games;
    }
    return Some(InsertAll(games.value));
  }

  /** Insertion of every game of s in turn, first to last: the sort qsort
      performs, up to the order of games with equal display names. */
  function InsertAll(s: seq<Game>): (r: seq<Game>)
    ensures SortedByName(r)
    ensures multiset(r) == multiset(s)
    decreases |s|
  {
    if |s| == 0 then []
    else
      var n := |s| - 1;
      assert s == s[..n] + [s[n]];
      Insert(s[n], InsertAll(s[..n]))
  }
}
