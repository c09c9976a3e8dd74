/** The resolve-and-fetch routine shared by the three on-demand loader nodes,
    parameterised by the artifact category, and the three nodes as instances
    of it. The routine looks the chosen name up in the configuration, picks
    the credential, issues the GET, derives the file name from the response,
    writes the body unless a file of that name is already present, and then
    either hands the file name to the host's loader or falls back. */
module OnDemand {
  import opened Types
  import opened Resolver
  import opened Credentials
  import opened Disposition
  import opened Fetch

  /** How one run of the routine ends. */
  datatype Outcome =
    | NotFound                // no record, or an empty URL: nothing was requested
    | FetchFailed             // the write phase raised: the node falls back
    | Raise(error: Error)     // an exception that leaves the node
    | Load(filename: string)  // the file is in place: the loader gets this name

  /** The outcome, the request issued (if any) and the filesystem afterwards. */
  datatype Step = Step(outcome: Outcome, request: Option<Request>, fs: FileSystem)

  /** The declared range of the `download_chunks` input (1 to 12). The
      method itself does not check it: the host's input validation keeps the
      value within the declared minimum and maximum. The parameter defaults
      to `None` when the host passes nothing. */
  predicate ChunksInRange(downloadChunks: Option<int>) {
    downloadChunks.Some? ==> 1 <= downloadChunks.value <= 12
  }

  /** The directory a category's files are stored in. */
  function ModelFolder(modelsDir: string, cat: Category): string {
    Join(modelsDir, cat.Folder())
  }

  /** `raise_for_status` raises for client (4xx) and server (5xx) errors. */
  predicate RaisesForStatus(status: int) {
    400 <= status < 600
  }

  /** The request for a resolved URL: a GET carrying the selected credential. */
  function RequestFor(url: string, apiKey: Option<string>, env: Env): Request {
    Request(url, AuthHeader(EffectiveKey(url, apiKey, env)))
  }

  /** Everything after the GET: the status check, the file name, the
      presence guard and the write phase; the outcome and the new filesystem. */
  function Finish(cat: Category, modelsDir: string, fs: FileSystem, resp: Response,
                  downloadChunks: Option<int>): (Outcome, FileSystem)
    requires ChunksInRange(downloadChunks)
  {
    if resp.Refused? then (Raise(RequestFailed), fs)
    else if RaisesForStatus(resp.status) then (Raise(HttpError(resp.status)), fs)
    else
      match ExtractFilename(resp.headers)
      case None => (Raise(TypeError), fs)
      case Some(f) =>
        var path := Join(ModelFolder(modelsDir, cat), f);
        if path in fs then (Load(f), fs)
        else
          var (fs', ok) := WritePhase(fs, path, resp.headers, resp.body, resp.fault, downloadChunks);
          (if ok then Load(f) else FetchFailed, fs')
  }

  /** The routine, in the order the source takes its steps. */
  function Run(cat: Category, config: Config, modelsDir: string, fs: FileSystem, env: Env,
               server: Request -> Response, name: string, apiKey: Option<string>,
               downloadChunks: Option<int>): Step
    requires ChunksInRange(downloadChunks)
  {
    if cat.Key() !in config then Step(Raise(KeyError(cat.Key())), None, fs)
    else
      var url := FirstMatch(config[cat.Key()], name);
      if !Truthy(url) then Step(NotFound, None, fs)
      else
        var req := RequestFor(url.value, apiKey, env);
        var (outcome, fs') := Finish(cat, modelsDir, fs, server(req), downloadChunks);
        Step(outcome, Some(req), fs')
  }

  /** After the GET: check the status, name the file, and write it unless it
      is already there. */
  method Complete(cat: Category, modelsDir: string, fs: FileSystem, resp: Response,
                  downloadChunks: Option<int>)
    returns (outcome: Outcome, fs': FileSystem)
    requires ChunksInRange(downloadChunks)
    ensures (outcome, fs') == Finish(cat, modelsDir, fs, resp, downloadChunks)
  {
    fs' := fs;
    if resp.Refused? {
      return Raise(RequestFailed), fs;
    }
    if RaisesForStatus(resp.status) {
      return Raise(HttpError(resp.status)), fs;
    }
    var filename := ExtractFilename(resp.headers);
    if filename.None? {
      return Raise(TypeError), fs;
    }
    var path := Join(ModelFolder(modelsDir, cat), filename.value);
    if path in fs {
      return Load(filename.value), fs;
    }
    // the try block: size header and block size, then the file
    if !ContentLengthOk(resp.headers) || downloadChunks.None? {
      return FetchFailed, fs;
    }
    var chunks := Split(resp.body, BlockSize(downloadChunks.value));
    var completed;
    ghost var reported;
    fs', completed, reported := WriteChunks(fs, path, chunks, resp.fault);
    outcome := if completed then Load(filename.value) else FetchFailed;
  }

  /** The routine as the nodes run it: the lookup loop, the rebinding of the
      key, the GET, then the rest. */
  method Download(cat: Category, config: Config, modelsDir: string, fs: FileSystem, env: Env,
                  server: Request -> Response, name: string, apiKey: Option<string>,
                  downloadChunks: Option<int>)
    returns (step: Step)
    requires ChunksInRange(downloadChunks)
    ensures step == Run(cat, config, modelsDir, fs, env, server, name, apiKey, downloadChunks)
  {
    var key := cat.Key();
    if key !in config {
      return Step(Raise(KeyError(key)), None, fs);
    }
    var url := LookupUrl(config[key], name);
    if !Truthy(url) {
      return Step(NotFound, None, fs);
    }
    var token := SelectKey(url.value, apiKey, env);
    var req := Request(url.value, AuthHeader(token));
    var outcome, fs' := Complete(cat, modelsDir, fs, server(req), downloadChunks);
    return Step(outcome, Some(req), fs');
  }

  /** A name without a record, or whose URL is empty, ends the run before any
      request is made, and nothing on disk changes; a missing category raises
      `KeyError` instead, also before any request. */
  lemma LookupMissFallsBack(cat: Category, config: Config, modelsDir: string, fs: FileSystem, env: Env,
                            server: Request -> Response, name: string, apiKey: Option<string>,
                            downloadChunks: Option<int>)
    requires ChunksInRange(downloadChunks)
    ensures var r := Run(cat, config, modelsDir, fs, env, server, name, apiKey, downloadChunks);
      && (r.request.None? <==> cat.Key() !in config || !Truthy(FirstMatch(config[cat.Key()], name)))
      && (cat.Key() !in config ==> r == Step(Raise(KeyError(cat.Key())), None, fs))
      && (cat.Key() in config && !Truthy(FirstMatch(config[cat.Key()], name)) ==> r == Step(NotFound, None, fs))
  {
  }

  /** The one request is a GET of the first matching record's URL, carrying
      the credential the selector picks for that URL. */
  lemma RequestCarriesCredential(cat: Category, config: Config, modelsDir: string, fs: FileSystem, env: Env,
                                 server: Request -> Response, name: string, apiKey: Option<string>,
                                 downloadChunks: Option<int>)
    requires ChunksInRange(downloadChunks)
    ensures var r := Run(cat, config, modelsDir, fs, env, server, name, apiKey, downloadChunks);
      r.request.Some? ==>
        && cat.Key() in config
        && FirstMatch(config[cat.Key()], name) == Some(r.request.value.url)
        && r.request.value.url != ""
        && r.request.value.headers == AuthHeader(EffectiveKey(r.request.value.url, apiKey, env))
        && (r.outcome, r.fs) == Finish(cat, modelsDir, fs, server(r.request.value), downloadChunks)
  {
  }

  /** Failures before the write phase escape the node as exceptions and leave
      the filesystem alone: a refused request, a 4xx/5xx status, and a
      response without a usable file name. */
  lemma EarlyErrorsPropagate(cat: Category, modelsDir: string, fs: FileSystem, resp: Response,
                             downloadChunks: Option<int>)
    requires ChunksInRange(downloadChunks)
    ensures resp.Refused? ==> Finish(cat, modelsDir, fs, resp, downloadChunks) == (Raise(RequestFailed), fs)
    ensures resp.Response? && RaisesForStatus(resp.status) ==>
      Finish(cat, modelsDir, fs, resp, downloadChunks) == (Raise(HttpError(resp.status)), fs)
    ensures resp.Response? && !RaisesForStatus(resp.status) && ExtractFilename(resp.headers).None? ==>
      Finish(cat, modelsDir, fs, resp, downloadChunks) == (Raise(TypeError), fs)
  {
  }

  /** If the destination already exists, nothing is written and the loader
      gets the existing file. */
  lemma PresenceGuard(cat: Category, modelsDir: string, fs: FileSystem, resp: Response,
                      downloadChunks: Option<int>, f: string)
    requires ChunksInRange(downloadChunks)
    requires resp.Response? && !RaisesForStatus(resp.status)
    requires ExtractFilename(resp.headers) == Some(f)
    requires Join(ModelFolder(modelsDir, cat), f) in fs
    ensures Finish(cat, modelsDir, fs, resp, downloadChunks) == (Load(f), fs)
  {
  }

  /** If the destination is missing, the run either stores exactly the body
      there and loads it, or falls back leaving the filesystem as it was or
      with a prefix of the body there; no other file changes. */
  lemma DownloadStoresBody(cat: Category, modelsDir: string, fs: FileSystem, resp: Response,
                           downloadChunks: Option<int>, f: string)
    requires ChunksInRange(downloadChunks)
    requires resp.Response? && !RaisesForStatus(resp.status)
    requires ExtractFilename(resp.headers) == Some(f)
    requires Join(ModelFolder(modelsDir, cat), f) !in fs
    ensures var (outcome, fs') := Finish(cat, modelsDir, fs, resp, downloadChunks);
      var path := Join(ModelFolder(modelsDir, cat), f);
      && (outcome == Load(f) <==> ContentLengthOk(resp.headers) && downloadChunks.Some? && resp.fault.None?)
      && (outcome == Load(f) ==> fs' == fs[path := resp.body])
      && (outcome != Load(f) ==>
            outcome == FetchFailed &&
            (fs' == fs || (path in fs' && fs' == fs[path := fs'[path]] && fs'[path] <= resp.body)))
  {
    var path := Join(ModelFolder(modelsDir, cat), f);
    WritePhaseResult(fs, path, resp.headers, resp.body, resp.fault, downloadChunks);
  }

  /** Whenever the loader is called, the file it is given is present in the
      models folder, and its name is the one the response gave (not the
      logical name). */
  lemma LoaderGetsPresentFile(cat: Category, modelsDir: string, fs: FileSystem, resp: Response,
                              downloadChunks: Option<int>)
    requires ChunksInRange(downloadChunks)
    ensures var (outcome, fs') := Finish(cat, modelsDir, fs, resp, downloadChunks);
      outcome.Load? ==>
        && resp.Response? && ExtractFilename(resp.headers) == Some(outcome.filename)
        && Join(ModelFolder(modelsDir, cat), outcome.filename) in fs'
  {
    if resp.Response? && !RaisesForStatus(resp.status) && ExtractFilename(resp.headers).Some? {
      var path := Join(ModelFolder(modelsDir, cat), ExtractFilename(resp.headers).value);
      WritePhaseResult(fs, path, resp.headers, resp.body, resp.fault, downloadChunks);
    }
  }

  /** A file that existed before a run is never changed or removed by it. */
  lemma ExistingFilesUntouched(cat: Category, modelsDir: string, fs: FileSystem, resp: Response,
                               downloadChunks: Option<int>)
    requires ChunksInRange(downloadChunks)
    ensures var (outcome, fs') := Finish(cat, modelsDir, fs, resp, downloadChunks);
      forall p :: p in fs ==> p in fs' && fs'[p] == fs[p]
  {
    if resp.Response? && !RaisesForStatus(resp.status) && ExtractFilename(resp.headers).Some? {
      var path := Join(ModelFolder(modelsDir, cat), ExtractFilename(resp.headers).value);
      if path !in fs {
        WritePhaseKeepsOthers(fs, path, resp.headers, resp.body, resp.fault, downloadChunks);
      }
    }
  }

  /** Running again after a successful run issues the same request again
      (the file name is only known from the response). Whatever the second
      answer is, as long as it is a success naming the same file, the run
      writes nothing and loads that file again. */
  lemma SecondRunSkipsWrite(cat: Category, config: Config, modelsDir: string, fs: FileSystem, env: Env,
                            server: Request -> Response, again: Request -> Response, name: string,
                            apiKey: Option<string>, downloadChunks: Option<int>)
    requires ChunksInRange(downloadChunks)
    requires var first := Run(cat, config, modelsDir, fs, env, server, name, apiKey, downloadChunks);
      && first.outcome.Load? && first.request.Some?
      && var resp := again(first.request.value);
         resp.Response? && !RaisesForStatus(resp.status) && ExtractFilename(resp.headers) == Some(first.outcome.filename)
    ensures var first := Run(cat, config, modelsDir, fs, env, server, name, apiKey, downloadChunks);
      Run(cat, config, modelsDir, first.fs, env, again, name, apiKey, downloadChunks) == first
  {
    var first := Run(cat, config, modelsDir, fs, env, server, name, apiKey, downloadChunks);
    LoaderGetsPresentFile(cat, modelsDir, fs, server(first.request.value), downloadChunks);
    PresenceGuard(cat, modelsDir, first.fs, again(first.request.value), downloadChunks, first.outcome.filename);
  }

  /** In particular, a server that answers the repeated request as it did the
      first time gives the same run again, with nothing written. */
  lemma SameAnswerSameRun(cat: Category, config: Config, modelsDir: string, fs: FileSystem, env: Env,
                          server: Request -> Response, name: string, apiKey: Option<string>,
                          downloadChunks: Option<int>)
    requires ChunksInRange(downloadChunks)
    requires Run(cat, config, modelsDir, fs, env, server, name, apiKey, downloadChunks).outcome.Load?
    ensures var first := Run(cat, config, modelsDir, fs, env, server, name, apiKey, downloadChunks);
      Run(cat, config, modelsDir, first.fs, env, server, name, apiKey, downloadChunks) == first
  {
    var first := Run(cat, config, modelsDir, fs, env, server, name, apiKey, downloadChunks);
    var resp := server(first.request.value);
    LoaderGetsPresentFile(cat, modelsDir, fs, resp, downloadChunks);
    SecondRunSkipsWrite(cat, config, modelsDir, fs, env, server, server, name, apiKey, downloadChunks);
  }

  /** The table used when the configuration file cannot be read: two LoRA
      records with a placeholder URL and no other category. */
  const DefaultConfig: Config :=
    map["loras" := [Entry("Lora n1", "not_valid_url"), Entry("Lora n2", "not_valid_url")]]

  /** With the default table the LoRA node offers its two names, the other
      two nodes offer nothing, and running them raises `KeyError`. */
  lemma DefaultTable(modelsDir: string, fs: FileSystem, env: Env, server: Request -> Response,
                     name: string, apiKey: Option<string>, downloadChunks: Option<int>)
    requires ChunksInRange(downloadChunks)
    ensures Choices(DefaultConfig, Lora) == ["Lora n1", "Lora n2"]
    ensures Choices(DefaultConfig, Unet) == [] && Choices(DefaultConfig, Checkpoint) == []
    ensures Run(Unet, DefaultConfig, modelsDir, fs, env, server, name, apiKey, downloadChunks).outcome
      == Raise(KeyError("diffusion_models"))
    ensures Run(Checkpoint, DefaultConfig, modelsDir, fs, env, server, name, apiKey, downloadChunks).outcome
      == Raise(KeyError("checkpoints"))
  {
  }

  /** A loader's result as a node that falls back to `None` returns it: a
      value is returned as it is, and an exception leaves the node. */
  function Loaded<T>(c: Call<T>): Call<Option<T>> {
    match c
    case Returns(v) => Returns(Some(v))
    case Raises(e) => Raises(e)
  }

  /** `OnDemandLoraLoader.download_lora`: the routine for `"loras"`; its
      fallback is the unchanged `(model, clip)` pair, and on success the
      host's LoRA loader gets the downloaded file name and both strengths;
      what it returns or raises is the node's result. */
  method DownloadLora<M, C, S>(config: Config, modelsDir: string, fs: FileSystem, env: Env,
                               server: Request -> Response,
                               loadLora: (M, Option<C>, string, S, S) -> Call<(M, Option<C>)>,
                               model: M, loraName: string, strengthModel: S, strengthClip: S,
                               clip: Option<C>, apiKey: Option<string>, downloadChunks: Option<int>)
    returns (result: Call<(M, Option<C>)>, fs': FileSystem)
    requires ChunksInRange(downloadChunks)
    ensures var r := Run(Lora, config, modelsDir, fs, env, server, loraName, apiKey, downloadChunks);
      && fs' == r.fs
      && (r.outcome == NotFound || r.outcome == FetchFailed ==> result == Returns((model, clip)))
      && (r.outcome.Raise? ==> result == Raises(r.outcome.error))
      && (r.outcome.Load? ==>
            result == loadLora(model, clip, r.outcome.filename, strengthModel, strengthClip))
  {
    var step := Download(Lora, config, modelsDir, fs, env, server, loraName, apiKey, downloadChunks);
    fs' := step.fs;
    match step.outcome
    case NotFound => result := Returns((model, clip));
    case FetchFailed => result := Returns((model, clip));
    case Raise(e) => result := Raises(e);
    case Load(f) => result := loadLora(model, clip, f, strengthModel, strengthClip);
  }

  /** `OnDemandUNETLoader.download_unet`: the routine for `"diffusion_models"`;
      its fallback is `None`, and on success the host's UNET loader's result
      for the file name and weight type is returned, and its exception leaves
      the node. */
  method DownloadUnet<D, U>(config: Config, modelsDir: string, fs: FileSystem, env: Env,
                            server: Request -> Response, loadUnet: (string, D) -> Call<U>,
                            unetName: string, weightDtype: D, apiKey: Option<string>,
                            downloadChunks: Option<int>)
    returns (result: Call<Option<U>>, fs': FileSystem)
    requires ChunksInRange(downloadChunks)
    ensures var r := Run(Unet, config, modelsDir, fs, env, server, unetName, apiKey, downloadChunks);
      && fs' == r.fs
      && (r.outcome == NotFound || r.outcome == FetchFailed ==> result == Returns(None))
      && (r.outcome.Raise? ==> result == Raises(r.outcome.error))
      && (r.outcome.Load? ==> result == Loaded(loadUnet(r.outcome.filename, weightDtype)))
  {
    var step := Download(Unet, config, modelsDir, fs, env, server, unetName, apiKey, downloadChunks);
    fs' := step.fs;
    match step.outcome
    case NotFound => result := Returns(None);
    case FetchFailed => result := Returns(None);
    case Raise(e) => result := Raises(e);
    case Load(f) => result := Loaded(loadUnet(f, weightDtype));
  }

  /** `OnDemandCheckpointLoader.download_checkpoint`: the routine for
      `"checkpoints"`; its fallback is `None`, and on success the host's
      checkpoint loader's result for the file name is returned, and its
      exception leaves the node. */
  method DownloadCheckpoint<K>(config: Config, modelsDir: string, fs: FileSystem, env: Env,
                               server: Request -> Response, loadCheckpoint: string -> Call<K>,
                               ckptName: string, apiKey: Option<string>, downloadChunks: Option<int>)
    returns (result: Call<Option<K>>, fs': FileSystem)
    requires ChunksInRange(downloadChunks)
    ensures var r := Run(Checkpoint, config, modelsDir, fs, env, server, ckptName, apiKey, downloadChunks);
      && fs' == r.fs
      && (r.outcome == NotFound || r.outcome == FetchFailed ==> result == Returns(None))
      && (r.outcome.Raise? ==> result == Raises(r.outcome.error))
      && (r.outcome.Load? ==> result == Loaded(loadCheckpoint(r.outcome.filename)))
  {
    var step := Download(Checkpoint, config, modelsDir, fs, env, server, ckptName, apiKey, downloadChunks);
    fs' := step.fs;
    match step.outcome
    case NotFound => result := Returns(None);
    case FetchFailed => result := Returns(None);
    case Raise(e) => result := Raises(e);
    case Load(f) => result := Loaded(loadCheckpoint(f));
  }
}
