/** loadPdfJs: the memoised, lazily started load of the pdf.js engine and the
    binding of its background worker. The module-level variables `pdfjsLib`,
    `isLoading` and `loadPromise` are the fields of PdfJsLoader; the imports'
    settling and the worker constructor are events and parameters. */
module PdfLoader {
  import opened Wrappers

  const BrowserOnlyMessage: string := "PDF conversion is only available in the browser"

  /** `${err}` for an Error object with a non-empty message: "Error: "
      followed by the message. */
  function ErrorText(message: string): (t: string)
    requires message != ""
    ensures |t| > |message| && t[|t| - |message|..] == message
  {
    "Error: " + message
  }

  /** What is passed to the worker: the URL string, or the worker module
      object itself when it has no default export. */
  datatype WorkerScript = ScriptUrl(url: string) | ModuleObject

  /** The imported `pdf.worker.min.mjs?url` module. */
  datatype WorkerModule = WorkerModule(defaultExport: Option<string>)

  /** `workerMod?.default ?? workerMod`. */
  function WorkerUrl(m: WorkerModule): (w: WorkerScript)
    ensures w.ScriptUrl? <==> m.defaultExport.Some?
    ensures w.ScriptUrl? ==> w.url == m.defaultExport.value
  {
    match m.defaultExport
    case Some(url) => ScriptUrl(url)
    case None => ModuleObject
  }

  /** A worker built by `new Worker(workerUrl, { type: "module" })`. */
  datatype ModuleWorker = ModuleWorker(script: WorkerScript)

  /** The imported pdf.js module; only its `GlobalWorkerOptions` are modelled. */
  class Engine {
    var workerPort: Option<ModuleWorker>
    var workerSrc: Option<WorkerScript>

    constructor ()
      ensures workerPort == None && workerSrc == None
    {
      workerPort := None;
      workerSrc := None;
    }

    /** A worker has been bound to the engine in one of the two ways. */
    predicate Bound()
      reads this
    {
      workerPort.Some? || workerSrc.Some?
    }
  }

  datatype Settlement = Pending | Fulfilled(lib: Engine) | Rejected(reason: string)

  /** The promise `Promise.all([...]).then(...)` stored in `loadPromise`. */
  class LoadPromise {
    var state: Settlement

    constructor ()
      ensures state == Pending
    {
      state := Pending;
    }
  }

  /** What a call of the async function loadPdfJs hands back: a promise already
      resolved with the library, a promise that adopts the stored load promise
      (and so settles exactly as it does), or a promise rejected with an Error
      carrying the given message. `Awaiting(p)` names the adopted promise `p`,
      not the call's own wrapper promise. */
  datatype CallOutcome = Ready(lib: Engine) | Awaiting(promise: LoadPromise) | Thrown(message: string)

  class PdfJsLoader {
    var pdfjsLib: Option<Engine>
    var isLoading: bool
    var loadPromise: Option<LoadPromise>
    /** How many times the two imports were started. */
    ghost var importsStarted: nat
    /** How many times `new Worker(...)` was attempted. */
    ghost var workersConstructed: nat

    ghost function Footprint(): set<object>
      reads this
    {
      {this}
      + (if loadPromise.Some? then {loadPromise.value} else {})
      + (if pdfjsLib.Some? then {pdfjsLib.value} else {})
    }

    /** The loader's invariant: no load started means no library; one load at
        most is ever started; a pending or rejected load leaves `isLoading` set
        (a rejection never clears it); a fulfilled load is the library that
        `pdfjsLib` holds, with one worker construction and a worker bound. */
    ghost predicate Valid()
      reads Footprint()
    {
      && (loadPromise.None? ==> pdfjsLib.None? && importsStarted == 0 && workersConstructed == 0)
      && (loadPromise.Some? ==> importsStarted == 1)
      && (loadPromise.Some? ==>
            match loadPromise.value.state
            case Pending => isLoading && pdfjsLib.None? && workersConstructed == 0
            case Rejected(_) => isLoading && pdfjsLib.None? && workersConstructed == 0
            case Fulfilled(lib) => pdfjsLib == Some(lib) && !isLoading && workersConstructed == 1 && lib.Bound())
    }

    /** The import promise exists and has not settled yet. */
    ghost predicate LoadPending()
      reads this, Footprint()
    {
      loadPromise.Some? && loadPromise.value.state.Pending?
    }

    /** The module's initial state: `null`, `false`, `null`. */
    constructor ()
      ensures Valid()
      ensures pdfjsLib == None && !isLoading && loadPromise == None
      ensures importsStarted == 0 && workersConstructed == 0
    {
      pdfjsLib := None;
      isLoading := false;
      loadPromise := None;
      importsStarted := 0;
      workersConstructed := 0;
    }

    /** One call of `loadPdfJs()`. `inBrowser` is `typeof window !== "undefined"`.
        A cached library is returned as it is and a stored promise is adopted,
        neither touching any state; otherwise `isLoading` is set and,
        outside a browser, the call throws before storing a promise, so a later
        call tries again; in a browser the imports are started exactly once and
        the new pending promise is stored and adopted. */
    method Call(inBrowser: bool) returns (out: CallOutcome)
      requires Valid()
      modifies this
      ensures Valid()
      ensures old(pdfjsLib).Some? ==> out == Ready(old(pdfjsLib).value) && unchanged(this)
      ensures old(pdfjsLib).None? && old(loadPromise).Some? ==>
                out == Awaiting(old(loadPromise).value) && unchanged(this)
      ensures old(pdfjsLib).None? && old(loadPromise).None? && !inBrowser ==>
                && out == Thrown(BrowserOnlyMessage)
                && isLoading && pdfjsLib.None? && loadPromise.None?
                && importsStarted == old(importsStarted) && workersConstructed == old(workersConstructed)
      ensures old(pdfjsLib).None? && old(loadPromise).None? && inBrowser ==>
                && loadPromise.Some? && fresh(loadPromise.value) && loadPromise.value.state.Pending?
                && out == Awaiting(loadPromise.value)
                && isLoading && pdfjsLib.None?
                && importsStarted == old(importsStarted) + 1 && workersConstructed == old(workersConstructed)
    {
      if pdfjsLib.Some? {
        return Ready(pdfjsLib.value);
      }
      if loadPromise.Some? {
        return Awaiting(loadPromise.value);
      }
      isLoading := true;
      if !inBrowser {
        return Thrown(BrowserOnlyMessage);
      }
      var p := new LoadPromise();
      importsStarted := importsStarted + 1;
      loadPromise := Some(p);
      out := Awaiting(p);
    }

    /** Both imports fulfilled: the `.then` callback. `workerConstructed` says
        whether `new Worker(workerUrl, { type: "module" })` returned (true) or
        threw (false). Exactly one of the two options is assigned, a failed
        construction never fails the load, and afterwards `pdfjsLib` holds the
        library, `isLoading` is false and the stored promise is fulfilled with it. */
    method Resolve(lib: Engine, workerMod: WorkerModule, workerConstructed: bool)
      requires Valid() && LoadPending()
      modifies this, loadPromise.value, lib
      ensures Valid()
      ensures loadPromise == old(loadPromise) && loadPromise.value.state == Fulfilled(lib)
      ensures pdfjsLib == Some(lib) && !isLoading
      ensures importsStarted == old(importsStarted) && workersConstructed == old(workersConstructed) + 1
      ensures workerConstructed ==>
                lib.workerPort == Some(ModuleWorker(WorkerUrl(workerMod))) && lib.workerSrc == old(lib.workerSrc)
      ensures !workerConstructed ==>
                lib.workerSrc == Some(WorkerUrl(workerMod)) && lib.workerPort == old(lib.workerPort)
    {
      var workerUrl := WorkerUrl(workerMod);
      workersConstructed := workersConstructed + 1;
      if workerConstructed {
        lib.workerPort := Some(ModuleWorker(workerUrl));
      } else {
        lib.workerSrc := Some(workerUrl);
      }
      pdfjsLib := Some(lib);
      isLoading := false;
      loadPromise.value.state := Fulfilled(lib);
    }

    /** One of the imports rejected: the stored promise rejects and nothing of
        the loader changes. `loadPromise` is never cleared and `isLoading`
        stays set, so every later call returns this rejected promise. */
    method Reject(reason: string)
      requires Valid() && LoadPending()
      modifies loadPromise.value
      ensures Valid()
      ensures loadPromise.value.state == Rejected(reason)
    {
      loadPromise.value.state := Rejected(reason);
    }
  }

  /** The value `await loadPdfJs()` produces for a call's outcome, once its
      promise has settled (None while it is pending). */
  function AwaitedEngine(out: CallOutcome): (r: Option<Result<Engine>>)
    reads if out.Awaiting? then {out.promise} else {}
    requires out.Thrown? ==> out.message != ""
    ensures r.None? <==> out.Awaiting? && out.promise.state.Pending?
    ensures out.Ready? ==> r == Some(Ok(out.lib))
    ensures out.Thrown? ==> r == Some(Err(ErrorText(out.message)))
    ensures out.Awaiting? && out.promise.state.Rejected? ==> r == Some(Err(out.promise.state.reason))
    ensures out.Awaiting? && out.promise.state.Fulfilled? ==> r == Some(Ok(out.promise.state.lib))
  {
    match out
    case Ready(lib) => Some(Ok(lib))
    case Thrown(message) => Some(Err(ErrorText(message)))
    case Awaiting(p) =>
      match p.state
      case Pending => None
      case Fulfilled(lib) => Some(Ok(lib))
      case Rejected(reason) => Some(Err(reason))
  }

  /** Several first uses: one import, every caller's promise adopting the one
      stored promise, one worker, and the same library for every later caller. */
  method SharedFirstUse(url: string)
  {
    var lib := new Engine();
    var loader := new PdfJsLoader();
    var a := loader.Call(true);
    var b := loader.Call(true);
    var c := loader.Call(true);
    assert a.Awaiting? && a == b && b == c;
    assert loader.importsStarted == 1;
    loader.Resolve(lib, WorkerModule(Some(url)), false);
    assert AwaitedEngine(a) == Some(Ok(lib));
    assert lib.workerSrc == Some(ScriptUrl(url));
    var d := loader.Call(true);
    assert d == Ready(lib);
    assert loader.importsStarted == 1 && loader.workersConstructed == 1;
  }

  /** Outside a browser the call throws and stores nothing, so a later call in
      a browser starts the load; once it is rejected every call sees the same
      rejected promise and no second import is ever started. */
  method RetryAfterEnvironmentError(reason: string)
  {
    var loader := new PdfJsLoader();
    var a := loader.Call(false);
    assert AwaitedEngine(a) == Some(Err("Error: " + BrowserOnlyMessage));
    assert loader.isLoading && loader.loadPromise.None?;
    var b := loader.Call(true);
    assert b.Awaiting? && loader.importsStarted == 1;
    loader.Reject(reason);
    var c := loader.Call(true);
    assert c == b && AwaitedEngine(c) == Some(Err(reason));
    assert loader.importsStarted == 1 && loader.isLoading;
  }
}
