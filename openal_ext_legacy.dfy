/** The older copy of the OpenAL extension loader. Its `get_real_type` and
    its `#define` classification are the same text as the newer loader's, so
    both are taken from `OpenAlExt`; what differs is the shape of the
    procedure records (a `(res_type, name, arg_types)` triple), the two
    header paths, the absence of the enum table, and the absence of any
    handling of a missing header file. Like the newer loader's, its parser
    takes the classification order; the program as it stands is the
    `AsWritten` instance. */
module OpenAlExtLegacy {
  import opened Wrappers
  import opened OpenAlExt

  /** `(res_type, name, arg_types)`. */
  datatype LegacyProc = LegacyProc(resType: Option<CType>, name: string, argTypes: seq<Option<CType>>)

  /** The triple recorded for a procedure: the newer record without the
      parameter names and the type and result spellings. */
  function Triples(procs: seq<ProcRecord>): (r: seq<LegacyProc>)
    ensures |r| == |procs|
    ensures forall i :: 0 <= i < |procs| ==>
              r[i].resType == procs[i].resType && r[i].name == procs[i].name && r[i].argTypes == procs[i].argTypes
  {
    seq(|procs|, i requires 0 <= i < |procs| => LegacyProc(procs[i].resType, procs[i].name, procs[i].argTypes))
  }

  /** Recording one more procedure appends its triple. */
  lemma TriplesAppend(records: seq<ProcRecord>, p: ProcRecord)
    ensures Triples(records + [p]) == Triples(records) + [LegacyProc(p.resType, p.name, p.argTypes)]
  {
    assert forall i :: 0 <= i < |records| ==> (records + [p])[i] == records[i];
  }

  /** `parse_definitions(fname)` of the older loader, over the lines of the
      file: the same definitions as the newer loader, and the procedure
      triples in line order. */
  method ParseDefinitions(order: DefineOrder, lines: seq<Line>) returns (r: Result<(Assoc, seq<LegacyProc>), ParseError>)
    ensures ParseLines(order, lines).Failure? ==> r == Failure(ParseLines(order, lines).error)
    ensures ParseLines(order, lines).Success? ==>
              r == Success((ParseLines(order, lines).value.defs, Triples(ParseLines(order, lines).value.procs)))
  {
    var defs: Assoc := [];
    var procs: seq<LegacyProc> := [];
    ghost var records: seq<ProcRecord> := [];
    var i := 0;
    while i < |lines|
      invariant 0 <= i <= |lines|
      invariant ParseLines(order, lines[..i]) == Success(Parsed(defs, records))
      invariant procs == Triples(records)
    {
      var line := lines[i];
      ParseLinesStep(order, lines[..i + 1], lines[..i]);
      if !Text.Contains(line.text, "/*") {
        if Text.Contains(line.text, "#define") {
          var added := AddAll(order, defs, line.defines);
          if added.Failure? {
            r := Failure(added.error);
            FailureSticks(order, lines, i + 1);
            return;
          }
          defs := added.value;
        }
        if Text.Contains(line.text, "AL_API") && line.api.Some? {
          var p := ProcOf(line.api.value);
          if p.Failure? {
            r := Failure(p.error);
            FailureSticks(order, lines, i + 1);
            return;
          }
          TriplesAppend(records, p.value);
          procs := procs + [LegacyProc(p.value.resType, p.value.name, p.value.argTypes)];
          records := records + [p.value];
        }
      }
      i := i + 1;
    }
    assert lines[..i] == lines;
    r := Success((defs, procs));
  }

  /** A procedure declared with a `void` or `ALvoid` result is recorded with
      the result type `None`. */
  lemma VoidResultIsNone(order: DefineOrder, lines: seq<Line>, k: nat)
    requires ParseLines(order, lines).Success? && k < |ParseLines(order, lines).value.procs|
    requires var p := ParseLines(order, lines).value.procs[k]; p.resName == "void" || p.resName == "ALvoid"
    ensures Triples(ParseLines(order, lines).value.procs)[k].resType == None
  {
    RecordsComeFromDeclarations(order, lines, k);
  }

  /** Every record holds the result type its declaration asked for. */
  lemma {:induction false} RecordsComeFromDeclarations(order: DefineOrder, lines: seq<Line>, k: nat)
    requires ParseLines(order, lines).Success? && k < |ParseLines(order, lines).value.procs|
    ensures var p := ParseLines(order, lines).value.procs[k];
            (p.resName == "void" || p.resName == "ALvoid") ==> p.resType == None
  {
    var prior := ParseLines(order, lines[..|lines| - 1]);
    var line := lines[|lines| - 1];
    assert prior.Success?;
    var procs := ParseLines(order, lines).value.procs;
    if k < |prior.value.procs| {
      assert procs[..|prior.value.procs|] == prior.value.procs;
      assert procs[k] == prior.value.procs[k];
      RecordsComeFromDeclarations(order, lines[..|lines| - 1], k);
    } else {
      var p := ProcOf(line.api.value);
      assert procs[k] == p.value;
    }
  }

  /** A namespace entry of the older loader. */
  datatype LegacyEntry = Define(value: DefValue) | Proc(proc: LegacyProc)

  /** A header file that does not exist (the `open` raises, and nothing
      catches it), or a malformed one. */
  datatype LoadError = MissingHeader(path: string) | Malformed(error: ParseError)

  /** The header files of the older loader, in load order. */
  const LegacyHeaders: seq<string> := ["openal/efx.h", "openal/alext.h"]

  /** `all_defs.update(defs)`. */
  function AddConstants(m: map<string, LegacyEntry>, d: Assoc): (r: map<string, LegacyEntry>)
    ensures forall i :: 0 <= i < |d| ==> d[i].0 in r
    ensures forall k :: k in m ==> k in r
  {
    if d == [] then m
    else
      var r := AddConstants(m, d[..|d| - 1])[d[|d| - 1].0 := Define(d[|d| - 1].1)];
      assert forall i :: 0 <= i < |d| - 1 ==> d[i] == d[..|d| - 1][i];
      r
  }

  /** `add_procs(procs, all_defs)`: each procedure under its name. */
  function AddProcedures(m: map<string, LegacyEntry>, procs: seq<LegacyProc>): (r: map<string, LegacyEntry>)
    ensures forall i :: 0 <= i < |procs| ==> procs[i].name in r
    ensures |procs| > 0 ==> r[procs[|procs| - 1].name] == Proc(procs[|procs| - 1])
  {
    if procs == [] then m
    else
      var r := AddProcedures(m, procs[..|procs| - 1])[procs[|procs| - 1].name := Proc(procs[|procs| - 1])];
      assert forall i :: 0 <= i < |procs| - 1 ==> procs[i] == procs[..|procs| - 1][i];
      r
  }

  /** Loading the headers in order (`None` for a file that does not exist):
      the first missing or malformed header stops the load. */
  function LoadHeaders(order: DefineOrder, files: seq<Option<seq<Line>>>): (r: Result<map<string, LegacyEntry>, LoadError>)
    requires |files| <= |LegacyHeaders|
  {
    if files == [] then Success(map[])
    else
      var prior := LoadHeaders(order, files[..|files| - 1]);
      var file := files[|files| - 1];
      if prior.Failure? then prior
      else if file.None? then Failure(MissingHeader(LegacyHeaders[|files| - 1]))
      else
        var p := ParseLines(order, file.value);
        if p.Failure? then Failure(Malformed(p.error))
        else Success(AddProcedures(AddConstants(prior.value, p.value.defs), Triples(p.value.procs)))
  }

  /** A missing header anywhere makes the whole load fail. */
  lemma {:induction false} MissingHeaderFails(order: DefineOrder, files: seq<Option<seq<Line>>>, i: nat)
    requires |files| <= |LegacyHeaders| && i < |files| && files[i].None?
    ensures LoadHeaders(order, files).Failure?
  {
    if i < |files| - 1 {
      MissingHeaderFails(order, files[..|files| - 1], i);
    }
  }

  /** The older loader reads the same `#define` lines the same way, so a
      first header holding `#define X 0xdeadbeef` aborts its load too. */
  lemma HexDefineAbortsLegacyLoad(second: Option<seq<Line>>)
    ensures LoadHeaders(AsWritten, [Some([DeadBeefLine()]), second]) ==
              Failure(Malformed(DefineFailed(BadFloat("0xdeadbeef"))))
  {
    HexDefineAbortsLoad([]);
    var files := [Some([DeadBeefLine()]), second];
    assert files[..1][..0] == [];
    LoadFailureSticks(AsWritten, files, 1);
  }

  /** `load_extensions()` of the older loader, given the contents of its two
      header files. */
  method LoadExtensions(order: DefineOrder, files: seq<Option<seq<Line>>>) returns (r: Result<map<string, LegacyEntry>, LoadError>)
    requires |files| == |LegacyHeaders|
    ensures r == LoadHeaders(order, files)
  {
    var allDefs: map<string, LegacyEntry> := map[];
    var i := 0;
    while i < |files|
      invariant 0 <= i <= |files|
      invariant LoadHeaders(order, files[..i]) == Success(allDefs)
    {
      assert files[..i + 1][..i] == files[..i];
      if files[i].None? {
        r := Failure(MissingHeader(LegacyHeaders[i]));
        LoadFailureSticks(order, files, i + 1);
        return;
      }
      var parsed := ParseDefinitions(order, files[i].value);
      if parsed.Failure? {
        r := Failure(Malformed(parsed.error));
        LoadFailureSticks(order, files, i + 1);
        return;
      }
      allDefs := AddConstants(allDefs, parsed.value.0);
      allDefs := AddProcedures(allDefs, parsed.value.1);
      i := i + 1;
    }
    assert files[..i] == files;
    r := Success(allDefs);
  }

  lemma {:induction false} LoadFailureSticks(order: DefineOrder, files: seq<Option<seq<Line>>>, n: nat)
    requires |files| <= |LegacyHeaders| && n <= |files| && LoadHeaders(order, files[..n]).Failure?
    ensures LoadHeaders(order, files) == LoadHeaders(order, files[..n])
    decreases |files| - n
  {
    if n < |files| {
      assert files[..n + 1][..n] == files[..n];
      LoadFailureSticks(order, files, n + 1);
    } else {
      assert files[..n] == files;
    }
  }
}
