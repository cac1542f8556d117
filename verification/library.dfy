/** src/library_scene.c: which files of the games folder become library
    entries, how an entry is named, the list reload and the selection. */
module Library {
  import opened Text
  import opened Utility

  /** The text after the last '.', or "" when there is no dot or the only
      candidate is the first character (PGB_LibraryScene_listFiles). */
  function Extension(filename: string): (r: string)
    ensures '.' !in r && |r| <= |filename| && r == filename[|filename| - |r|..]
    ensures (forall k | 1 <= k < |filename| :: filename[k] != '.') ==> r == ""
    ensures (exists k | 1 <= k < |filename| :: filename[k] == '.') ==>
              |r| + 1 < |filename| && filename[|filename| - |r| - 1] == '.'
  {
    match LastIndex(filename, '.')
    case None => ""
    case Some(i) => if i == 0 then "" else filename[i + 1..]
  }

  /** A file is added to the library iff its extension is "gb" or "gbc". */
  function IsRom(filename: string): (b: bool)
    ensures b ==> exists k | 1 <= k < |filename| :: filename[k] == '.'
    ensures b ==> |filename| >= 4 && filename[|filename| - 3..] in {".gb", "gbc"}
  {
    var e := Extension(filename);
    var n := |filename|;
    assert e == "gb" ==> n >= 4 && filename[n - 3] == '.' && filename[n - 2..] == e && filename[n - 3..] == ".gb";
    assert e == "gbc" ==> n >= 5 && filename[n - 3..] == e;
    e == "gb" || e == "gbc"
  }

  /** A name stem.ext with a non-empty stem and a dot-free ext is a ROM
      exactly when ext is "gb" or "gbc". */
  lemma IsRomOfExtension(stem: string, ext: string)
    requires |stem| > 0 && '.' !in ext
    ensures IsRom(stem + "." + ext) <==> ext == "gb" || ext == "gbc"
  {
    var name := stem + "." + ext;
    assert name[|stem|] == '.';
    assert forall k | |stem| < k < |name| :: name[k] == ext[k - |stem| - 1];
    assert LastIndex(name, '.') == Some(|stem|);
    assert name[|stem| + 1..] == ext;
  }

  /** Without a dot past the first character nothing is a ROM: "gb" and
      ".gb" are both rejected. */
  lemma NoDotNoRom(filename: string)
    requires forall k | 1 <= k < |filename| :: filename[k] != '.'
    ensures !IsRom(filename)
  {
  }

  /** The display name: the file name cut at its last '.', wherever that is
      (PGB_Game_new). */
  function DisplayName(filename: string): (r: string)
    ensures |r| <= |filename| && r == filename[..|r|]
    ensures '.' !in filename ==> r == filename
    ensures '.' in filename ==> |r| < |filename| && filename[|r|] == '.' && '.' !in filename[|r| + 1..]
  {
    match LastIndex(filename, '.')
    case None => filename
    case Some(i) => filename[..i]
  }

  /** PGB_Game_new: the full path is "games/" + the file name, the display
      name is cut at the last dot, and the clean name is the display name
      sanitised. */
  function NewGame(filename: string): (g: Game)
    ensures g.filename == filename
    ensures g.fullpath == GamesPath + "/" + filename
    ensures g.displayName == DisplayName(filename)
    ensures |g.cleanName| == |g.displayName|
    ensures forall i | 0 <= i < |g.cleanName| :: g.cleanName[i] !in Unsafe
    ensures forall i | 0 <= i < |g.cleanName| ::
              g.cleanName[i] == if g.displayName[i] in Unsafe then '_' else g.displayName[i]
  {
    var d := DisplayName(filename);
    assert '_' !in Unsafe;
    Game(filename, GamesPath + "/" + filename, d, Sanitized(d))
  }

  /** For a ROM named stem.gb the entry and its save agree on the stem. */
  lemma DisplayNameIsStem(stem: string, ext: string)
    requires |stem| > 0 && '.' !in ext
    ensures DisplayName(stem + "." + ext) == Stem(stem + "." + ext) == stem
  {
    StemOfExtension(stem, ext);
    var name := stem + "." + ext;
    assert name[|stem|] == '.';
    assert forall k | |stem| < k < |name| :: name[k] == ext[k - |stem| - 1];
    assert LastIndex(name, '.') == Some(|stem|);
  }

  /** The two rules part on a dot file: ".gb" is displayed as "" but saves
      under ".gb". */
  lemma DisplayNameOfDotFile(name: string)
    requires |name| > 0 && name[0] == '.'
    requires forall k | 1 <= k < |name| :: name[k] != '.'
    ensures DisplayName(name) == ""
    ensures Stem(name) == name
  {
    assert LastIndex(name, '.') == Some(0);
  }

  /** The entries of a listing that pass a test, in listing order: with
      IsRom, the files the listfiles callback keeps. */
  function Filter(keep: string -> bool, files: seq<string>): (r: seq<string>)
    ensures |r| <= |files|
    ensures forall j | 0 <= j < |r| :: r[j] in files && keep(r[j])
    ensures forall f | f in files && keep(f) :: f in r
    decreases |files|
  {
    if |files| == 0 then []
    else if keep(files[0]) then [files[0]] + Filter(keep, files[1..])
    else Filter(keep, files[1..])
  }

  /** Filtering a listing split in two filters each part and keeps the first
      part's entries ahead of the second's: the order is the listing's. */
  lemma {:induction false} FilterAppend(keep: string -> bool, a: seq<string>, b: seq<string>)
    ensures Filter(keep, a + b) == Filter(keep, a) + Filter(keep, b)
    decreases |a|
  {
    if |a| == 0 {
      assert a + b == b;
    } else {
      assert (a + b)[0] == a[0];
      assert (a + b)[1..] == a[1..] + b;
      FilterAppend(keep, a[1..], b);
    }
  }

  /** Each kept entry appears in the filtered listing as often as in the
      listing, and nothing else appears. */
  lemma {:induction false} FilterCount(keep: string -> bool, files: seq<string>, f: string)
    ensures multiset(Filter(keep, files))[f] == if keep(f) then multiset(files)[f] else 0
    decreases |files|
  {
    if |files| > 0 {
      var tail := files[1..];
      FilterCount(keep, tail, f);
      assert files == [files[0]] + tail;
      assert multiset(files)[f] == multiset([files[0]])[f] + multiset(tail)[f];
      if keep(files[0]) {
        assert Filter(keep, files) == [files[0]] + Filter(keep, tail);
        assert multiset(Filter(keep, files))[f] == multiset([files[0]])[f] + multiset(Filter(keep, tail))[f];
      } else {
        assert Filter(keep, files) == Filter(keep, tail);
        assert files[0] != f || !keep(f);
      }
    }
  }

  /** One game per name, made by mk, in the names' order. */
  function Games(mk: string -> Game, names: seq<string>): (r: seq<Game>)
    ensures |r| == |names|
    ensures forall j | 0 <= j < |r| :: r[j] == mk(names[j])
  {
    seq(|names|, j requires 0 <= j < |names| => mk(names[j]))
  }

  /** The games of a name followed by more names. */
  lemma GamesCons(mk: string -> Game, x: string, names: seq<string>)
    ensures Games(mk, [x] + names) == [mk(x)] + Games(mk, names)
  {
    var l := Games(mk, [x] + names);
    var r := [mk(x)] + Games(mk, names);
    assert |l| == |r|;
    forall j | 0 <= j < |l|
      ensures l[j] == r[j]
    {
      if j > 0 {
        assert ([x] + names)[j] == names[j - 1];
      }
    }
  }

  /** The listfiles callback over the folder's entries in the order the host
      reports them: one game per ROM file, in that order, so entry j is the
      game of the j-th ROM file of the listing. */
  function ListFiles(files: seq<string>): (r: seq<Game>)
    ensures |r| <= |files|
    ensures r == Games(NewGame, Filter(IsRom, files))
    ensures forall f | f in files && IsRom(f) :: NewGame(f) in r
    ensures forall g | g in r :: g.filename in files && IsRom(g.filename) && g == NewGame(g.filename)
    decreases |files|
  {
    var r := if |files| == 0 then []
      else
        var rest := ListFiles(files[1..]);
        if IsRom(files[0]) then
          GamesCons(NewGame, files[0], Filter(IsRom, files[1..]));
          [NewGame(files[0])] + rest
        else rest;
    GamesCover(IsRom, NewGame, files, r);
    GamesFrom(IsRom, NewGame, files, r);
    r
  }

  /** Every kept entry's game is among the games. */
  lemma GamesCover(keep: string -> bool, mk: string -> Game, files: seq<string>, r: seq<Game>)
    requires r == Games(mk, Filter(keep, files))
    ensures forall f | f in files && keep(f) :: mk(f) in r
  {
    var names := Filter(keep, files);
    forall f | f in files && keep(f)
      ensures mk(f) in r
    {
      var j :| 0 <= j < |names| && names[j] == f;
      assert r[j] == mk(f);
    }
  }

  /** Every game is made from a kept entry and carries its name. */
  lemma GamesFrom(keep: string -> bool, mk: string -> Game, files: seq<string>, r: seq<Game>)
    requires forall f :: mk(f).filename == f
    requires r == Games(mk, Filter(keep, files))
    ensures forall g | g in r :: g.filename in files && keep(g.filename) && g == mk(g.filename)
  {
    var names := Filter(keep, files);
    forall g | g in r
      ensures g.filename in files && keep(g.filename) && g == mk(g.filename)
    {
      var j :| 0 <= j < |r| && r[j] == g;
      assert g == mk(names[j]);
    }
  }

  datatype Tab = List | Empty

  /** The library scene's state this model keeps: the games, the list items'
      titles, the tab shown and the list view's selection. */
  datatype Scene = Scene(games: seq<Game>, items: seq<string>, tab: Tab, selected: int)

  /** PGB_LibraryScene_reloadList: list the folder, sort the games by display
      name, make one item per game in that order, and show the list tab iff
      there is an item. */
  method Reload(s: Scene, files: seq<string>) returns (r: Scene)
    ensures SortedByName(r.games)
    ensures multiset(r.games) == multiset(ListFiles(files))
    ensures forall g | g in r.games :: g.filename in files && IsRom(g.filename) && g == NewGame(g.filename)
    ensures |r.items| == |r.games|
    ensures forall i | 0 <= i < |r.items| :: r.items[i] == r.games[i].displayName
    ensures r.tab == List <==> |r.items| > 0
    ensures r.selected == s.selected
  {
    var sorted := SortGames(Some(ListFiles(files)));
    var games := sorted.value;
    SameMembers(ListFiles(files), games);
    var items := Titles(games);
    var tab := if |items| > 0 then List else Empty;
    r := Scene(games, items, tab, s.selected);
  }

  /** The item loop of the reload: one button per game, titled with its
      display name, in the games' order. */
  method Titles(games: seq<Game>) returns (items: seq<string>)
    ensures |items| == |games|
    ensures forall k | 0 <= k < |games| :: items[k] == games[k].displayName
  {
    items := [];
    var i := 0;
    while i < |games|
      invariant 0 <= i <= |games|
      invariant |items| == i
      invariant forall k | 0 <= k < i :: items[k] == games[k].displayName
    {
      items := items + [games[i].displayName];
      i := i + 1;
    }
  }

  lemma SameMembers<T>(a: seq<T>, b: seq<T>)
    requires multiset(a) == multiset(b)
    ensures forall x | x in b :: x in a
  {
    forall x | x in b
      ensures x in a
    {
      assert x in multiset(b);
    }
  }

  /** The A-button branch of PGB_LibraryScene_update: the full path of the
      selected game when the selection is a valid item index, else nothing
      opens. The games array is indexed by the item index, which the code
      relies on having as many items as games. */
  function OpenSelected(s: Scene): (r: Option<string>)
    requires |s.items| == |s.games|
    ensures r.Some? <==> 0 <= s.selected < |s.items|
    ensures r.Some? ==> r.value == s.games[s.selected].fullpath
  {
    if 0 <= s.selected < |s.items| then Some(s.games[s.selected].fullpath) else None
  }
}
