/**
  The control flow of RoslynAssemblyCompiler (Assets/scripts/RoslynCodeRunner.cs)
  around an abstract toolchain: which loaded assemblies become compilation
  references, which diagnostics are logged, and which compiled type, if any,
  is attached to the target. Parsing, emitting, loading and reflection are
  the Toolchain's functions; the thread-pool hop is not modelled.
*/
module Compiler {
  import opened Wrappers
  import opened Scene

  datatype Severity = Hidden | Info | Warning | Error

  datatype Diagnostic = Diagnostic(severity: Severity, message: string)

  /** An assembly of the running domain, as the reference loop inspects it. */
  datatype LoadedAssembly = LoadedAssembly(name: string, isDynamic: bool, location: string)

  type Image = seq<bv8>

  datatype EmitResult = EmitResult(success: bool, image: Image, diagnostics: seq<Diagnostic>)

  datatype Toolchain = Toolchain(
    readable: string -> bool,                   // MetadataReference.CreateFromFile(path) does not throw
    emit: (string, seq<string>) -> EmitResult,  // parse the source and emit against these reference paths
    load: Image -> Option<seq<ScriptType>>)     // Assembly.Load then GetTypes; None when either throws

  /** `FirstOrDefault`: the index of the first element satisfying p. */
  function FirstWhere<T>(s: seq<T>, p: T -> bool): (r: Option<nat>)
    ensures r.Some? ==> r.value < |s| && p(s[r.value]) && forall j :: 0 <= j < r.value ==> !p(s[j])
    ensures r.None? ==> forall j :: 0 <= j < |s| ==> !p(s[j])
    decreases |s|
  {
    if s == [] then None
    else if p(s[0]) then Some(0)
    else match FirstWhere(s[1..], p)
      case None => None
      case Some(i) => Some(i + 1)
  }

  /** The guard inside the reference loop, together with the read that its try/catch protects. */
  predicate Referenced(a: LoadedAssembly, readable: string -> bool) {
    !a.isDynamic && a.location != "" && readable(a.location)
  }

  /** The references the foreach collects: each qualifying location, in domain order. */
  function References(loaded: seq<LoadedAssembly>, readable: string -> bool): seq<string>
    decreases |loaded|
  {
    if loaded == [] then []
    else
      var last := loaded[|loaded| - 1];
      References(loaded[..|loaded| - 1], readable) + if Referenced(last, readable) then [last.location] else []
  }

  /** A path is referenced exactly when some qualifying loaded assembly lives there. */
  lemma {:induction false} ReferencesExactly(loaded: seq<LoadedAssembly>, readable: string -> bool, path: string)
    ensures path in References(loaded, readable) <==>
      exists i :: 0 <= i < |loaded| && Referenced(loaded[i], readable) && loaded[i].location == path
    decreases |loaded|
  {
    if loaded != [] {
      var init := loaded[..|loaded| - 1];
      ReferencesExactly(init, readable, path);
      if path in References(init, readable) {
        var i :| 0 <= i < |init| && Referenced(init[i], readable) && init[i].location == path;
        assert loaded[i] == init[i];
      }
      if exists i :: 0 <= i < |loaded| && Referenced(loaded[i], readable) && loaded[i].location == path {
        var i :| 0 <= i < |loaded| && Referenced(loaded[i], readable) && loaded[i].location == path;
        if i < |init| { assert init[i] == loaded[i]; }
      }
    }
  }

  /** The references never include anything but qualifying locations, and at most one per assembly. */
  lemma {:induction false} ReferencesLength(loaded: seq<LoadedAssembly>, readable: string -> bool)
    ensures |References(loaded, readable)| <= |loaded|
    ensures (forall i :: 0 <= i < |loaded| ==> Referenced(loaded[i], readable)) ==> |References(loaded, readable)| == |loaded|
    decreases |loaded|
  {
    if loaded != [] {
      var init := loaded[..|loaded| - 1];
      ReferencesLength(init, readable);
      assert forall i :: 0 <= i < |init| ==> init[i] == loaded[i];
    }
  }

  predicate IsNetstandard(a: LoadedAssembly) {
    a.name == "netstandard"
  }

  /**
    The full reference list: the loop's references, then the first assembly
    named netstandard once more whenever one is loaded. Reading that one is not
    guarded, so None stands for the exception it throws on an empty or
    unreadable path.
  */
  function ReferenceList(loaded: seq<LoadedAssembly>, readable: string -> bool): Option<seq<string>> {
    match FirstWhere(loaded, IsNetstandard)
    case None => Some(References(loaded, readable))
    case Some(k) =>
      if loaded[k].location != "" && readable(loaded[k].location) then Some(References(loaded, readable) + [loaded[k].location])
      else None
  }

  function Occurrences(s: seq<string>, x: string): nat
    decreases |s|
  {
    if s == [] then 0 else Occurrences(s[..|s| - 1], x) + if s[|s| - 1] == x then 1 else 0
  }

  lemma {:induction false} OccursWhenPresent(s: seq<string>, x: string)
    requires x in s
    ensures Occurrences(s, x) >= 1
    decreases |s|
  {
    if s[|s| - 1] != x {
      assert x in s[..|s| - 1];
      OccursWhenPresent(s[..|s| - 1], x);
    }
  }

  /** A referenceable netstandard ends up in the list twice: once from the loop, once appended. */
  lemma NetstandardListedTwice(loaded: seq<LoadedAssembly>, readable: string -> bool, k: nat)
    requires FirstWhere(loaded, IsNetstandard) == Some(k) && Referenced(loaded[k], readable)
    ensures ReferenceList(loaded, readable).Some?
    ensures Occurrences(ReferenceList(loaded, readable).value, loaded[k].location) >= 2
  {
    var base := References(loaded, readable);
    var path := loaded[k].location;
    ReferencesExactly(loaded, readable, path);
    OccursWhenPresent(base, path);
    assert (base + [path])[..|base + [path]| - 1] == base;
  }

  /** The messages of the Error-severity diagnostics, in order. */
  function ErrorMessages(diagnostics: seq<Diagnostic>): seq<string>
    decreases |diagnostics|
  {
    if diagnostics == [] then []
    else
      var last := diagnostics[|diagnostics| - 1];
      ErrorMessages(diagnostics[..|diagnostics| - 1]) + if last.severity == Error then [last.message] else []
  }

  /** The positions of the Error-severity diagnostics. */
  function ErrorIndices(diagnostics: seq<Diagnostic>): set<int> {
    set i | 0 <= i < |diagnostics| && diagnostics[i].severity == Error
  }

  /** Every error diagnostic's message is logged. */
  lemma {:induction false} ErrorsAllLogged(diagnostics: seq<Diagnostic>)
    ensures forall i :: 0 <= i < |diagnostics| && diagnostics[i].severity == Error ==>
      diagnostics[i].message in ErrorMessages(diagnostics)
    decreases |diagnostics|
  {
    if diagnostics != [] {
      var init := diagnostics[..|diagnostics| - 1];
      ErrorsAllLogged(init);
      assert forall i :: 0 <= i < |init| ==> init[i] == diagnostics[i];
    }
  }

  /** One logged line per error diagnostic. */
  lemma {:induction false} OneLinePerError(diagnostics: seq<Diagnostic>)
    ensures |ErrorMessages(diagnostics)| == |ErrorIndices(diagnostics)|
    decreases |diagnostics|
  {
    if diagnostics != [] {
      var n := |diagnostics|;
      var init := diagnostics[..n - 1];
      OneLinePerError(init);
      assert forall i :: 0 <= i < |init| ==> init[i] == diagnostics[i];
      assert ErrorIndices(diagnostics) ==
        ErrorIndices(init) + if diagnostics[n - 1].severity == Error then {n - 1} else {};
    } else {
      assert ErrorIndices(diagnostics) == {};
    }
  }

  /**
    Only errors are logged, and all of them, one line per error diagnostic:
    warnings and infos never are.
  */
  lemma {:induction false} ErrorMessagesExactly(diagnostics: seq<Diagnostic>)
    ensures ErrorMessages(diagnostics) == [] <==> forall i :: 0 <= i < |diagnostics| ==> diagnostics[i].severity != Error
    ensures forall m :: m in ErrorMessages(diagnostics) ==>
      exists i :: 0 <= i < |diagnostics| && diagnostics[i] == Diagnostic(Error, m)
    ensures forall i :: 0 <= i < |diagnostics| && diagnostics[i].severity == Error ==>
      diagnostics[i].message in ErrorMessages(diagnostics)
    ensures |ErrorMessages(diagnostics)| == |ErrorIndices(diagnostics)|
    decreases |diagnostics|
  {
    ErrorsAllLogged(diagnostics);
    OneLinePerError(diagnostics);
    if diagnostics != [] {
      var init := diagnostics[..|diagnostics| - 1];
      ErrorMessagesExactly(init);
      assert forall i :: 0 <= i < |init| ==> init[i] == diagnostics[i];
    }
  }

  datatype CompileOutcome =
    | Compiled(image: Image)  // InternalCompile returned the bytes
    | Rejected                // emit failed: null after logging the errors
    | Threw                   // reading netstandard threw out of InternalCompile

  /** InternalCompile, as a function of its inputs. */
  function Compile(code: string, loaded: seq<LoadedAssembly>, tools: Toolchain): (r: CompileOutcome)
    ensures r.Threw? <==> ReferenceList(loaded, tools.readable).None?
    ensures r.Compiled? <==> ReferenceList(loaded, tools.readable).Some? && tools.emit(code, ReferenceList(loaded, tools.readable).value).success
    ensures r.Compiled? ==> r.image == tools.emit(code, ReferenceList(loaded, tools.readable).value).image
  {
    match ReferenceList(loaded, tools.readable)
    case None => Threw
    case Some(refs) =>
      var result := tools.emit(code, refs);
      if result.success then Compiled(result.image) else Rejected
  }

  /** The diagnostics InternalCompile logs: the errors of a failed emit, and nothing otherwise. */
  function CompileErrors(code: string, loaded: seq<LoadedAssembly>, tools: Toolchain): seq<string> {
    match ReferenceList(loaded, tools.readable)
    case None => []
    case Some(refs) =>
      var result := tools.emit(code, refs);
      if result.success then [] else ErrorMessages(result.diagnostics)
  }

  method InternalCompile(code: string, loaded: seq<LoadedAssembly>, tools: Toolchain) returns (outcome: CompileOutcome, logged: seq<string>)
    ensures outcome == Compile(code, loaded, tools)
    ensures logged == CompileErrors(code, loaded, tools)
  {
    var references: seq<string> := [];
    for i := 0 to |loaded|
      invariant references == References(loaded[..i], tools.readable)
    {
      var assembly := loaded[i];
      if !assembly.isDynamic && assembly.location != "" && tools.readable(assembly.location) {
        references := references + [assembly.location];
      }
      assert loaded[..i + 1][..i] == loaded[..i];
    }
    assert loaded[..|loaded|] == loaded;
    var netstandard := FirstWhere(loaded, IsNetstandard);
    if netstandard.Some? {
      var path := loaded[netstandard.value].location;
      if path == "" || !tools.readable(path) {
        return Threw, [];
      }
      references := references + [path];
    }
    var result := tools.emit(code, references);
    if result.success {
      return Compiled(result.image), [];
    }
    logged := [];
    for i := 0 to |result.diagnostics|
      invariant logged == ErrorMessages(result.diagnostics[..i])
    {
      var diag := result.diagnostics[i];
      if diag.severity == Error {
        logged := logged + [diag.message];
      }
      assert result.diagnostics[..i + 1][..i] == result.diagnostics[..i];
    }
    assert result.diagnostics[..|result.diagnostics|] == result.diagnostics;
    return Rejected, logged;
  }

  predicate IsBehaviour(t: ScriptType) {
    t.isMonoBehaviour
  }

  /** What a compile-and-attach call adds to the target's components. */
  function Attachment(outcome: CompileOutcome, load: Image -> Option<seq<ScriptType>>): (added: seq<ScriptType>)
    ensures |added| <= 1
    ensures !outcome.Compiled? ==> added == []
    ensures outcome.Compiled? && load(outcome.image).Some? ==>
      var types := load(outcome.image).value;
      && (added == [] <==> forall j :: 0 <= j < |types| ==> !types[j].isMonoBehaviour)
      && (added != [] ==> exists i :: 0 <= i < |types| && added[0] == types[i] && types[i].isMonoBehaviour
                                     && forall j :: 0 <= j < i ==> !types[j].isMonoBehaviour)
    ensures outcome.Compiled? && load(outcome.image).None? ==> added == []
  {
    if !outcome.Compiled? then []
    else match load(outcome.image)
      case None => []
      case Some(types) =>
        match FirstWhere(types, IsBehaviour)
        case None => []
        case Some(i) => [types[i]]
  }

  datatype CompilerNote =
    | CompileStarted(targetName: string)
    | RoslynError(message: string)
    | AttachedType(typeName: string)
    | AttachFailed     // Assembly.Load or GetTypes threw; caught and logged
    | Propagated       // the exception from InternalCompile left the task

  function ErrorNotes(messages: seq<string>): seq<CompilerNote> {
    seq(|messages|, i requires 0 <= i < |messages| => RoslynError(messages[i]))
  }

  /**
    Compiles, and on success attaches the first MonoBehaviour type of the
    compiled assembly to the target. A failed compile, or an assembly without
    such a type, leaves the target as it was.
  */
  method CompileAndAttach(code: string, target: GameObject, loaded: seq<LoadedAssembly>, tools: Toolchain)
    returns (log: seq<CompilerNote>)
    modifies target
    ensures target.components == old(target.components) + Attachment(Compile(code, loaded, tools), tools.load)
    ensures |log| >= 1 && log[0] == CompileStarted(target.name)
    ensures log[1..] ==
      var outcome := Compile(code, loaded, tools);
      ErrorNotes(CompileErrors(code, loaded, tools))
      + if outcome.Threw? then [Propagated]
        else if outcome.Rejected? then []
        else if tools.load(outcome.image).None? then [AttachFailed]
        else if Attachment(outcome, tools.load) == [] then []
        else [AttachedType(Attachment(outcome, tools.load)[0].name)]
  {
    log := [CompileStarted(target.name)];
    var outcome, errors := InternalCompile(code, loaded, tools);
    log := log + ErrorNotes(errors);
    if outcome.Threw? {
      log := log + [Propagated];
      return;
    }
    if outcome.Rejected? {
      return;
    }
    var types := tools.load(outcome.image);
    if types.None? {
      log := log + [AttachFailed];
      return;
    }
    var first := FirstWhere(types.value, IsBehaviour);
    if first.Some? {
      var t := types.value[first.value];
      target.components := target.components + [t];
      log := log + [AttachedType(t.name)];
    }
  }
}
