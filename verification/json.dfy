/** src/jparse.c: the decoder callbacks that build arrays and tables out of
    the values the host's JSON decoder reports, and parse_json's result. The
    decoder itself belongs to the host; here it is the sequence of callbacks
    it makes. */
module Json {
  import opened Text

  /** A decoded value. Numbers with a fraction are kept only as a kind:
      floating point is not modelled. An array slot the decoder never filled
      is None: the code grows the array without initialising such slots. */
  datatype JsonValue =
    | JNull
    | JTrue
    | JFalse
    | JInt(i: int)
    | JFloat
    | JString(s: string)
    | JArray(items: seq<Option<JsonValue>>)
    | JTable(pairs: seq<(string, JsonValue)>)

  datatype ContainerKind = ArrayKind | TableKind

  /** The container a decoder callback works on (the decoder's userdata):
      an array's first n slots, or a table's n key/value pairs. */
  datatype Container = ArrayC(slots: seq<Option<JsonValue>>) | TableC(pairs: seq<(string, JsonValue)>)

  /** SI_willDecodeSublist: a fresh container with n = 0, an array for an
      array and a table for anything else. */
  function WillDecodeSublist(kind: ContainerKind): (c: Container)
    ensures c.ArrayC? <==> kind == ArrayKind
    ensures c.ArrayC? ==> |c.slots| == 0
    ensures c.TableC? ==> |c.pairs| == 0
  {
    if kind == ArrayKind then ArrayC([]) else TableC([])
  }

  function Max(a: int, b: int): int {
    if a >= b then a else b
  }

  /** SI_didDecodeArrayValue with the decoder's one-based position pos:
      the value goes into slot pos - 1, and the array grows to pos slots
      when it was shorter; slots it grows past stay unfilled. A NULL array
      counts as empty. */
  function DidDecodeArrayValue(arr: Option<seq<Option<JsonValue>> >, pos: int, v: JsonValue)
    : (r: seq<Option<JsonValue>>)
    requires pos >= 1
    ensures var prior := if arr.None? then [] else arr.value;
            && |r| == Max(|prior|, pos)
            && r[pos - 1] == Some(v)
            && (forall i | 0 <= i < |prior| && i != pos - 1 :: r[i] == prior[i])
            && (forall i | |prior| <= i < pos - 1 :: r[i].None?)
  {
    var slots := if arr.None? then [] else arr.value;
    var n := if pos - 1 >= |slots| then pos else |slots|;
    var grown := slots + seq(n - |slots|, _ => None);
    grown[pos - 1 := Some(v)]
  }

  /** SI_didDecodeTableValue: the pair is appended at index n and n grows
      by one; an earlier pair with the same key stays. A NULL table counts
      as empty. */
  function DidDecodeTableValue(table: Option<seq<(string, JsonValue)>>, key: string, v: JsonValue)
    : (r: seq<(string, JsonValue)>)
    ensures var prior := if table.None? then [] else table.value;
            && |r| == |prior| + 1
            && r[..|prior|] == prior
            && r[|prior|] == (key, v)
  {
    (if table.None? then [] else table.value) + [(key, v)]
  }

  /** The array the callbacks build when the decoder reports the values of
      `values` from position first on, in order. */
  function FillArray(slots: seq<Option<JsonValue>>, values: seq<JsonValue>, first: nat)
    : seq<Option<JsonValue>>
    requires first >= 1
    decreases |values|
  {
    if |values| == 0 then slots
    else FillArray(DidDecodeArrayValue(Some(slots), first, values[0]), values[1..], first + 1)
  }

  /** An array reported as positions 1, 2, ..., k comes out as exactly the
      k values in order, every slot filled. */
  lemma DenseArray(values: seq<JsonValue>)
    ensures FillArray(WillDecodeSublist(ArrayKind).slots, values, 1) == seq(|values|, i requires 0 <= i < |values| => Some(values[i]))
  {
    FillArrayAppends([], values, 1);
  }

  lemma {:induction false} FillArrayAppends(slots: seq<Option<JsonValue>>, values: seq<JsonValue>, first: nat)
    requires first == |slots| + 1
    ensures FillArray(slots, values, first) == slots + seq(|values|, i requires 0 <= i < |values| => Some(values[i]))
    decreases |values|
  {
    if |values| > 0 {
      var next := DidDecodeArrayValue(Some(slots), first, values[0]);
      assert next == slots + [Some(values[0])];
      FillArrayAppends(next, values[1..], first + 1);
    }
  }

  /** The table the callbacks build from key/value reports, in order. */
  function FillTable(pairs: seq<(string, JsonValue)>, reports: seq<(string, JsonValue)>)
    : seq<(string, JsonValue)>
    decreases |reports|
  {
    if |reports| == 0 then pairs
    else FillTable(DidDecodeTableValue(Some(pairs), reports[0].0, reports[0].1), reports[1..])
  }

  /** A table keeps every reported pair in report order, repeated keys
      included. */
  lemma {:induction false} TableKeepsReports(pairs: seq<(string, JsonValue)>, reports: seq<(string, JsonValue)>)
    ensures FillTable(pairs, reports) == pairs + reports
    decreases |reports|
  {
    if |reports| > 0 {
      TableKeepsReports(pairs + [reports[0]], reports[1..]);
      assert pairs + [reports[0]] + reports[1..] == pairs + reports;
    }
  }

  /** parse_json. `outGiven` is false for a NULL out argument, `fileOpened` says
      whether the file opened, and `decoded` is the decoder's verdict: the
      value it produced, or None when it failed. The result is the return
      code and what *out holds afterwards (None when out is NULL). */
  function ParseJson(outGiven: bool, fileOpened: bool, decoded: Option<JsonValue>): (r: (int, Option<JsonValue>))
    ensures !outGiven ==> r == (0, None)
    ensures r.0 == 1 <==> outGiven && fileOpened && decoded.Some?
    ensures r.0 == 0 || r.0 == 1
    ensures outGiven && r.0 == 0 ==> r.1 == Some(JNull)
    ensures r.0 == 1 ==> r.1 == decoded
  {
    if !outGiven then (0, None)
    else if !fileOpened then (0, Some(JNull))
    else if decoded.None? then (0, Some(JNull))
    else (1, decoded)
  }
}
