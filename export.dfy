/**
 * The output loop of `main` in revolver.py: for every configured output, in
 * order, request its directory when the file name has one, then mesh and write
 * a binary STL file, or transfer and write a STEP file, or do nothing more for
 * any other type. The kernel and file-system calls are recorded as actions.
 */
module Export {
  import opened Geometry
  import opened Seqs

  /** One entry of the configuration's `Output` list. */
  datatype OutputConf = OutputConf(
    filename: string,
    kind: string,
    linearDeflection: real,
    isRelative: bool,
    angularDeflection: real)

  /** A side effect the loop performs on the file system or on the revolved surface. */
  datatype Action =
    | MakeDirs(path: string)            // create the output directory (and its parents)
    | CleanMesh                         // discard the surface's existing mesh
    | IncrementalMesh(linearDeflection: real, isRelative: bool,
                      angularDeflectionDegrees: real, inParallel: bool)
    | WriteStl(filename: string, ascii: bool)
    | TransferStep                      // hand the surface, as is, to the STEP writer
    | WriteStep(filename: string)

  /** The file an action writes, if any. */
  function WrittenBy(a: Action): seq<string>
  {
    match a
    case WriteStl(f, _) => [f]
    case WriteStep(f) => [f]
    case _ => []
  }

  /** The files an action list writes, in order. */
  function WrittenFiles(acts: seq<Action>): seq<string>
  {
    if acts == [] then [] else WrittenBy(acts[0]) + WrittenFiles(acts[1..])
  }

  lemma {:induction false} WrittenFilesConcat(a: seq<Action>, b: seq<Action>)
    ensures WrittenFiles(a + b) == WrittenFiles(a) + WrittenFiles(b)
  {
    if a == [] {
      ConcatEmpty(a, b);
    } else {
      WrittenFilesConcat(a[1..], b);
      ConcatHead(a, b);
      ConcatAssoc(WrittenBy(a[0]), WrittenFiles(a[1..]), WrittenFiles(b));
    }
  }

  /** The actions for one output whose file name has directory part `dir`. */
  function OutputActions(o: OutputConf, dir: string): seq<Action>
  {
    (if dir != "" then [MakeDirs(dir)] else []) + FormatActions(o)
  }

  /** The format-specific part of an output's actions. */
  function FormatActions(o: OutputConf): seq<Action>
  {
    if o.kind == "STL" then
      [CleanMesh,
       IncrementalMesh(o.linearDeflection * MM, o.isRelative, o.angularDeflection, true),
       WriteStl(o.filename, false)]
    else if o.kind == "STEP" then
      [TransferStep, WriteStep(o.filename)]
    else []
  }

  /** A directory is requested, as the first action, exactly when the file name has a directory part. */
  lemma OutputDirectoryRequest(o: OutputConf, dir: string)
    ensures var r := OutputActions(o, dir);
      && ((exists k :: 0 <= k < |r| && r[k].MakeDirs?) <==> dir != "")
      && (forall k :: 0 <= k < |r| && r[k].MakeDirs? ==> k == 0 && r[k].path == dir)
  {
    var r := OutputActions(o, dir);
    var f := FormatActions(o);
    assert forall k :: 0 <= k < |f| ==> !f[k].MakeDirs?;
    if dir != "" {
      assert r == [MakeDirs(dir)] + f;
      assert r[0].MakeDirs?;
    } else {
      assert r == f;
    }
  }

  /** An STL or STEP output writes its own file once; any other type writes nothing. */
  lemma OutputWrites(o: OutputConf, dir: string)
    ensures WrittenFiles(OutputActions(o, dir)) ==
            if o.kind == "STL" || o.kind == "STEP" then [o.filename] else []
  {
    var dirs := if dir != "" then [MakeDirs(dir)] else [];
    var f := FormatActions(o);
    assert OutputActions(o, dir) == dirs + f;
    WrittenFilesConcat(dirs, f);
    assert WrittenFiles(dirs) == [] by {
      if dir != "" {
        assert dirs[1..] == [];
      }
    }
    if o.kind == "STL" {
      assert WrittenFiles(f[2..]) == [o.filename] by {
        assert f[2..][1..] == [];
      }
      assert f[1..][1..] == f[2..];
    } else if o.kind == "STEP" {
      assert WrittenFiles(f[1..]) == [o.filename] by {
        assert f[1..][1..] == [];
      }
    }
  }

  /**
   * After the optional directory request, an STL output's actions are exactly:
   * clean the surface, mesh it with the output's own deflections (the linear one
   * times `mm = 1.0`) and write binary STL; a STEP output's are exactly: transfer
   * the surface and write the file; any other type has none.
   */
  lemma OutputFormats(o: OutputConf, dir: string)
    ensures var r := OutputActions(o, dir);
      var dirs := if dir != "" then 1 else 0;
      && (o.kind == "STL" ==>
            |r| == dirs + 3 &&
            r[|r| - 3] == CleanMesh &&
            r[|r| - 2] == IncrementalMesh(o.linearDeflection, o.isRelative, o.angularDeflection, true) &&
            r[|r| - 1] == WriteStl(o.filename, false))
      && (o.kind == "STEP" ==>
            |r| == dirs + 2 && r[|r| - 2] == TransferStep && r[|r| - 1] == WriteStep(o.filename))
      && (o.kind != "STL" && o.kind != "STEP" ==> |r| == dirs)
  {
  }

  /**
   * Meshing happens only for STL outputs and always straight after a clean;
   * STEP actions happen only for STEP outputs.
   */
  lemma OutputActionKinds(o: OutputConf, dir: string)
    ensures var r := OutputActions(o, dir);
      && (forall k :: 0 <= k < |r| && r[k].IncrementalMesh? ==> o.kind == "STL" && k > 0 && r[k - 1] == CleanMesh)
      && (forall k :: 0 <= k < |r| && (r[k].CleanMesh? || r[k].WriteStl?) ==> o.kind == "STL")
      && (forall k :: 0 <= k < |r| && (r[k].TransferStep? || r[k].WriteStep?) ==> o.kind == "STEP")
  {
    var dirs := if dir != "" then [MakeDirs(dir)] else [];
    var f := FormatActions(o);
    var r := OutputActions(o, dir);
    assert r == dirs + f;
    forall k | 0 <= k < |r|
      ensures r[k].IncrementalMesh? ==> o.kind == "STL" && k > 0 && r[k - 1] == CleanMesh
      ensures r[k].CleanMesh? || r[k].WriteStl? ==> o.kind == "STL"
      ensures r[k].TransferStep? || r[k].WriteStep? ==> o.kind == "STEP"
    {
      if k >= |dirs| {
        assert r[k] == f[k - |dirs|];
        if k > |dirs| {
          assert r[k - 1] == f[k - 1 - |dirs|];
        }
      }
    }
  }

  /** Reference definition of the loop: the outputs' actions, in configuration order. */
  function ExportLog(outs: seq<OutputConf>, dirname: string -> string): seq<Action>
  {
    if outs == [] then []
    else OutputActions(outs[0], dirname(outs[0].filename)) + ExportLog(outs[1..], dirname)
  }

  lemma {:induction false} ExportLogConcat(xs: seq<OutputConf>, ys: seq<OutputConf>, dirname: string -> string)
    ensures ExportLog(xs + ys, dirname) == ExportLog(xs, dirname) + ExportLog(ys, dirname)
  {
    if xs == [] {
      ConcatEmpty(xs, ys);
    } else {
      ExportLogConcat(xs[1..], ys, dirname);
      ConcatHead(xs, ys);
      ConcatAssoc(OutputActions(xs[0], dirname(xs[0].filename)), ExportLog(xs[1..], dirname), ExportLog(ys, dirname));
    }
  }

  /**
   * Outputs are processed in configuration order: the actions of output `i`
   * come after those of every earlier output and before those of every later one.
   */
  lemma ExportLogBlock(outs: seq<OutputConf>, i: nat, dirname: string -> string)
    requires i < |outs|
    ensures ExportLog(outs, dirname) ==
            ExportLog(outs[..i], dirname) +
            OutputActions(outs[i], dirname(outs[i].filename)) +
            ExportLog(outs[i + 1..], dirname)
  {
    var pre, mid, post := outs[..i], [outs[i]], outs[i + 1..];
    SplitAt(outs, i);
    ExportLogConcat(pre + mid, post, dirname);
    ExportLogConcat(pre, mid, dirname);
    ExportLogSingle(outs[i], dirname);
  }

  lemma ExportLogSingle(o: OutputConf, dirname: string -> string)
    ensures ExportLog([o], dirname) == OutputActions(o, dirname(o.filename))
  {
    assert [o][0] == o && [o][1..] == [];
  }

  /** The file names of the STL and STEP outputs, in configuration order. */
  function WritableTargets(outs: seq<OutputConf>): seq<string>
  {
    if outs == [] then []
    else (if outs[0].kind == "STL" || outs[0].kind == "STEP" then [outs[0].filename] else [])
         + WritableTargets(outs[1..])
  }

  /** Exactly the STL and STEP outputs are written, each once, in configuration order. */
  lemma {:induction false} ExportWritesTargets(outs: seq<OutputConf>, dirname: string -> string)
    ensures WrittenFiles(ExportLog(outs, dirname)) == WritableTargets(outs)
  {
    if outs != [] {
      ExportWritesTargets(outs[1..], dirname);
      OutputWrites(outs[0], dirname(outs[0].filename));
      WrittenFilesConcat(OutputActions(outs[0], dirname(outs[0].filename)), ExportLog(outs[1..], dirname));
    }
  }

  /** Every mesh request in the whole log comes straight after a clean of the previous mesh. */
  lemma {:induction false} CleanBeforeEveryMesh(outs: seq<OutputConf>, dirname: string -> string)
    ensures forall k :: 0 <= k < |ExportLog(outs, dirname)| && ExportLog(outs, dirname)[k].IncrementalMesh? ==>
              k > 0 && ExportLog(outs, dirname)[k - 1] == CleanMesh
  {
    if outs != [] {
      CleanBeforeEveryMesh(outs[1..], dirname);
      var head := OutputActions(outs[0], dirname(outs[0].filename));
      OutputActionKinds(outs[0], dirname(outs[0].filename));
      var rest := ExportLog(outs[1..], dirname);
      var log := ExportLog(outs, dirname);
      forall k | 0 <= k < |log| && log[k].IncrementalMesh?
        ensures k > 0 && log[k - 1] == CleanMesh
      {
        if k < |head| {
          assert head[k] == log[k];
        } else {
          assert rest[k - |head|] == log[k];
        }
      }
    }
  }

  /**
   * The loop of `main` over `conf['Output']`: each output's actions are
   * appended to the log in turn. `dirname` stands for os.path.dirname.
   */
  method ExportAll(outputs: seq<OutputConf>, dirname: string -> string) returns (log: seq<Action>)
    ensures log == ExportLog(outputs, dirname)
  {
    log := [];
    for i := 0 to |outputs|
      invariant log == ExportLog(outputs[..i], dirname)
    {
      var outconf := outputs[i];
      var filename := outconf.filename;
      var path := dirname(filename);
      var actions := [];
      if path != "" {
        actions := actions + [MakeDirs(path)];
      }
      if outconf.kind == "STL" {
        actions := actions + [CleanMesh];
        actions := actions + [IncrementalMesh(outconf.linearDeflection * MM, outconf.isRelative,
                                              outconf.angularDeflection, true)];
        actions := actions + [WriteStl(filename, false)];
      } else if outconf.kind == "STEP" {
        actions := actions + [TransferStep];
        actions := actions + [WriteStep(filename)];
      }
      assert actions == OutputActions(outconf, path);
      log := log + actions;
      TakeSnoc(outputs, i);
      ExportLogConcat(outputs[..i], [outconf], dirname);
      ExportLogSingle(outconf, dirname);
    }
    TakeAll(outputs);
  }
}
