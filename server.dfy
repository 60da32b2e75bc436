/**
 The HTTP routes of the backend, reduced to their decisions: whether a
 request is answered 404, and otherwise which Python command is started
 and with what content type its output is sent. The child's standard
 output is relayed by `StdoutRelay`: the chunks are appended in arrival
 order and the whole text is sent once, when the child closes.
 */
module Server {
  import opened Lookup
  import opened Decimal
  import opened Catalog

  /** A child process to start: the program and its argument vector. */
  datatype Command = Command(program: string, args: seq<string>)

  /** What a route does with a request. */
  datatype Plan =
    | NotFound                                      // `res.sendStatus(404)`
    | Spawn(contentType: string, command: Command)  // start the child, relay its stdout
    | NoResponse                                    // the handler returns without answering

  /**
   The name of the backend files of a dataset for a spatial attribute: the
   dataset's name, followed by the spatial id in decimal when that id is
   above 1 (`dataname + spatialattribute` in JavaScript).
   */
  function DataName(name: string, spatialid: int): (dn: string)
    ensures spatialid <= 1 ==> dn == name
    ensures spatialid > 1 ==> |dn| > |name| && dn[..|name|] == name
    ensures spatialid > 1 ==> AllDigits(dn[|name|..]) && ParseNat(dn[|name|..]) == spatialid
    ensures spatialid > 1 ==> dn[|name|] != '0'
  {
    if spatialid > 1 then
      var dn := name + NatToDecimal(spatialid);
      assert dn[|name|..] == NatToDecimal(spatialid);
      ParseNatOfDecimal(spatialid);
      dn
    else name
  }

  /** Two spatial ids give the same data name exactly when they are equal or both at most 1. */
  lemma DataNameCollisions(name: string, a: int, b: int)
    ensures DataName(name, a) == DataName(name, b) <==> a == b || (a <= 1 && b <= 1)
  {
  }

  /** The arguments of the cartogram script for a data name and an attribute. */
  function CartogramArgs(dataname: string, attributeid: int): seq<string> {
    ["./datapolygamyutils/view_map_json.py",
     "./datapolygamyutils/aggregates/" + dataname,
     "./datapolygamyutils/index/" + dataname,
     "4",
     IntToDecimal(attributeid),
     "./datapolygamyutils/neighborhood.txt"]
  }

  /**
   `GET /cartogram.json?datasetid=&attributeid=&spatialid=`, with the three
   query values already read as integers.
   */
  function Cartogram(datasetid: int, attributeid: int, spatialid: int): (r: Plan)
    ensures r.NotFound? <==> forall j :: 0 <= j < |Datasets()| ==> Datasets()[j].id != datasetid
    ensures !r.NoResponse?
    ensures r.Spawn? ==> r.contentType == "application/json" && r.command.program == "python3"
    ensures r.Spawn? ==> |r.command.args| == 6 && IsIntText(r.command.args[4]) && ParseInt(r.command.args[4]) == attributeid
    ensures r.Spawn? ==>
              var dn := DataName(DatasetById(Datasets(), datasetid).value.name, spatialid);
              r.command.args[1] == "./datapolygamyutils/aggregates/" + dn &&
              r.command.args[2] == "./datapolygamyutils/index/" + dn
  {
    match DatasetById(Datasets(), datasetid)
    case None => NotFound
    case Some(dataset) =>
      var dataname := DataName(dataset.name, spatialid);
      ParseIntOfDecimal(attributeid);
      Spawn("application/json", Command("python3", CartogramArgs(dataname, attributeid)))
  }

  /** For the one catalogued dataset the argument vector is fixed up to the data name and the attribute. */
  lemma CartogramForYellowData(attributeid: int, spatialid: int)
    ensures Cartogram(301, attributeid, spatialid) ==
            Spawn("application/json", Command("python3",
              ["./datapolygamyutils/view_map_json.py",
               "./datapolygamyutils/aggregates/" + DataName("yellowdata", spatialid),
               "./datapolygamyutils/index/" + DataName("yellowdata", spatialid),
               "4",
               IntToDecimal(attributeid),
               "./datapolygamyutils/neighborhood.txt"]))
  {
  }

  /** The drop-off locations (spatial id 2) of the yellow cab data live in files named `yellowdata2`. */
  lemma DropoffDataName()
    ensures DataName("yellowdata", 2) == "yellowdata2"
    ensures DataName("yellowdata", 1) == "yellowdata"
  {
  }

  /**
   `GET /histogram.svg?datasetid=`: the query value is read but not used;
   the dataset name is fixed to `yellowdata` and there is no 404 branch.
   */
  function Histogram(datasetid: string): (r: Plan)
    ensures r.Spawn? && r.contentType == "image/svg+xml" && r.command.program == "python3"
    ensures |r.command.args| == 4
    ensures r.command.args[0] == "./datapolygamyutils/datapoly1d.py"
    ensures r.command.args[1] == "./datapolygamyutils/aggregates/data"
    ensures r.command.args[2] == "./datapolygamyutils/" + "yellowdata" + ".header"
    ensures r.command.args[3] == "1"
  {
    var datasetname := "yellowdata";
    Spawn("image/svg+xml", Command("python3",
      ["./datapolygamyutils/datapoly1d.py",
       "./datapolygamyutils/aggregates/data",
       "./datapolygamyutils/" + datasetname + ".header",
       "1"]))
  }

  /** Every dataset id, catalogued or not, starts the same histogram command. */
  lemma HistogramIgnoresDataset(a: string, b: string)
    ensures Histogram(a) == Histogram(b)
  {
  }

  /**
   `GET /explanations.json?datasetid=&attributeid=`: the attribute text is
   passed to the script verbatim; the dataset is not looked up.
   */
  function Explanations(datasetid: string, attributeid: string): (r: Plan)
    ensures r.Spawn? && r.contentType == "application/json" && r.command.program == "python3"
    ensures |r.command.args| == 3
    ensures r.command.args[0] == "./datapolygamyutils/calculate_salient_explanation.py"
    ensures r.command.args[1] == attributeid
    ensures r.command.args[2] == "./datapolygamyutils/index/data"
  {
    var indexFile := "./datapolygamyutils/index/data";
    Spawn("application/json", Command("python3",
      ["./datapolygamyutils/calculate_salient_explanation.py", attributeid, indexFile]))
  }

  lemma ExplanationsIgnoresDataset(a: string, b: string, attributeid: string)
    ensures Explanations(a, attributeid) == Explanations(b, attributeid)
  {
  }

  /**
   The `filtercartogram.json` handler: 404 for an unknown dataset, and for a
   known one it returns without sending anything.
   */
  function FilterCartogram(datasetid: int): (r: Plan)
    ensures r.NotFound? <==> DatasetById(Datasets(), datasetid).None?
    ensures !r.NotFound? ==> r.NoResponse?
  {
    if DatasetById(Datasets(), datasetid).None? then NotFound else NoResponse
  }

  // ---------------------------------------------------------------------------
  // Relaying the child's standard output

  /** An event of a running child: a chunk on its standard output or on its standard error. */
  datatype StreamEvent = Stdout(chunk: string) | Stderr(chunk: string)

  /** The chunks joined in order. */
  function Concat(chunks: seq<string>): string {
    if chunks == [] then "" else Concat(chunks[..|chunks| - 1]) + chunks[|chunks| - 1]
  }

  /** The standard-output chunks of a run of events, in arrival order. */
  function StdoutChunks(events: seq<StreamEvent>): seq<string> {
    if events == [] then []
    else
      var rest := StdoutChunks(events[..|events| - 1]);
      match events[|events| - 1]
      case Stdout(d) => rest + [d]
      case Stderr(_) => rest
  }

  lemma {:induction false} ConcatAppend(a: seq<string>, b: seq<string>)
    ensures Concat(a + b) == Concat(a) + Concat(b)
  {
    if b != [] {
      assert (a + b)[..|a + b| - 1] == a + b[..|b| - 1];
      ConcatAppend(a, b[..|b| - 1]);
    } else {
      assert a + b == a;
    }
  }

  /** Chunk `i` occupies the body right after the chunks before it: nothing is reordered or dropped. */
  lemma ChunkInPlace(chunks: seq<string>, i: nat)
    requires i < |chunks|
    ensures |Concat(chunks[..i])| + |chunks[i]| <= |Concat(chunks)|
    ensures Concat(chunks)[|Concat(chunks[..i])|..|Concat(chunks[..i])| + |chunks[i]|] == chunks[i]
  {
    assert chunks == chunks[..i] + [chunks[i]] + chunks[i + 1..];
    ConcatAppend(chunks[..i] + [chunks[i]], chunks[i + 1..]);
    ConcatAppend(chunks[..i], [chunks[i]]);
    assert Concat([chunks[i]]) == chunks[i] by {
      assert [chunks[i]][..0] == [];
    }
  }

  /** The per-request state of a spawning route: the text gathered so far and the responses sent. */
  class StdoutRelay {
    var data: string
    var sent: seq<string>
    ghost var chunks: seq<string>

    ghost predicate Valid()
      reads this
    {
      data == Concat(chunks)
    }

    /** `let data = '';` before the child is started. */
    constructor ()
      ensures Valid() && chunks == [] && data == "" && sent == []
    {
      data := "";
      sent := [];
      chunks := [];
    }

    /** The `stdout` `data` handler: `data += d`. */
    method OnStdout(d: string)
      requires Valid()
      modifies this
      ensures Valid()
      ensures chunks == old(chunks) + [d] && data == old(data) + d && sent == old(sent)
    {
      data := data + d;
      chunks := chunks + [d];
      assert chunks[..|chunks| - 1] == old(chunks);
    }

    /** The `close` handler: `res.send(data)`. */
    method OnClose()
      requires Valid()
      modifies this
      ensures Valid()
      ensures chunks == old(chunks) && data == old(data) && sent == old(sent) + [data]
    {
      sent := sent + [data];
    }
  }

  /**
   One run of a spawning route: the child emits `events`, then closes. The
   stderr chunks are only logged; exactly one response is sent, and its
   body is the stdout chunks joined in the order they arrived.
   */
  method Relay(events: seq<StreamEvent>) returns (sends: seq<string>)
    ensures sends == [Concat(StdoutChunks(events))]
  {
    var relay := new StdoutRelay();
    var i := 0;
    while i < |events|
      invariant 0 <= i <= |events|
      invariant relay.Valid()
      invariant relay.chunks == StdoutChunks(events[..i])
      invariant relay.sent == []
    {
      assert events[..i + 1][..i] == events[..i];
      if events[i].Stdout? {
        relay.OnStdout(events[i].chunk);
      }
      i := i + 1;
    }
    assert events[..i] == events;
    relay.OnClose();
    sends := relay.sent;
  }
}
