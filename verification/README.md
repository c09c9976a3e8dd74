# On-demand loaders: a Dafny model of the resolve-and-fetch routine

ComfyUI's on-demand loader nodes come in three kinds: `OnDemandLoraLoader`, `OnDemandUNETLoader` and `OnDemandCheckpointLoader`. Each node offers a list of logical model names taken from a configuration table. When it runs, it does the following:

1. It finds the URL recorded for the chosen name.
2. It picks a bearer token for that URL.
3. It issues a streaming GET.
4. It derives the local file name from the response's `Content-Disposition` field.
5. If no file of that name is present in the category's models folder, it writes the body there in `download_chunks`-kibibyte blocks.
6. It hands the file name to the host's own loader, or returns the node's fallback value.

The three `download_*` methods are the same routine with a different category. This project models that routine once and shows that each node method is an instance of it.

Modules:

- `Types` (`types.dfy`): the shared vocabulary.
  - Configuration records, environment, header maps and a filesystem.
  - The three categories with their configuration keys and folders.
  - Requests, server responses, and the exceptions that can leave a node.
- `Resolver` (`resolver.dfy`): the name lists the nodes offer, and the first-match lookup loop.
- `Credentials` (`credentials.dfy`): which token goes with a URL, and the `Authorization: Bearer` field built from it (section 2.1 of RFC 6750).
- `PyStr` (`pystr.dfy`): `str.strip()` over Python's white-space set, and the text that `int()` accepts.
- `Disposition` (`disposition.dfy`): the search for `filename="?([^"]+)"?`. This includes the engine's backtracking over the optional quote, the leftmost-match rule and the final strip.
- `Fetch` (`fetch.dfy`): the destination path (`os.path.join`), the block size, the chunking of the body, and the write loop with its progress counter.
- `OnDemand` (`ondemand.dfy`): the routine as a specification function (`Run`, `Finish`) and as methods proved equal to it (`Download`, `Complete`), plus the three node methods.

External effects are parameters:

- The HTTP server is a function from request to response.
- The environment is a map.
- The local filesystem is a map from path to bytes, passed in and returned.
- The host's loaders are function parameters.

Notes on behaviour:

- Only the size read, the block-size computation, the construction of the progress bar and the write loop sit inside the routine's `try`. These exceptions are therefore not turned into the node's fallback; they leave the node:
  - a refused request;
  - a 4xx/5xx status (`raise_for_status`);
  - a response without a usable file name, where `os.path.join(dir, None)` raises `TypeError`.
- The GET is issued on every run, even when the file is already present, because the file name is known only from the response.
- The file name comes from the server and is joined as it is. An absolute name (`filename="/tmp/x"`) or one with `..` places the file outside the category's models folder.
- A category key missing from the configuration raises `KeyError`. The choice list uses `.get(..., [])`, but the lookup indexes the table directly.

## Model

| member | source | states |
|---|---|---|
| Resolver.Names | nodes.py:63 | the list has one name per record, in record order |
| Resolver.Choices | nodes.py:63 | a node's choices are the names of its category's records in order, and an empty list when the category key is absent |
| Resolver.FirstIndex | nodes.py:93-96 | the index where the loop stops: the first record with the requested name, or the record count when there is none |
| Resolver.FirstMatch | nodes.py:92-96 | the URL found is absent exactly when no record has the name; when found it is the URL of a record with that name, and no earlier record has the name |
| Resolver.LookupUrl | nodes.py:92-96 | the loop with `break` returns exactly the first-match URL |
| Resolver.ChoiceResolves | nodes.py:63-96 | a name is offered as a choice exactly when the category is configured and the lookup finds a record for it |
| Resolver.FirstMatchIgnoresLater | nodes.py:93-96 | once a record matches, appending records cannot change the URL found |
| Credentials.PrefixesDisjoint | nodes.py:101-105 | no URL starts with both the CivitAI and the Hugging Face prefix, so at most one fallback applies |
| Credentials.EffectiveKey | nodes.py:101-105 | the key rule stated case by case: a truthy explicit key, else `CIVITAI_TOKEN` for a CivitAI URL, else `HUGGINGFACE_TOKEN` for a Hugging Face URL, else the key as given |
| Credentials.SelectKey | nodes.py:101-105 | the two sequential `or` rebindings give the key rule: a truthy explicit key, else the host's environment token, else the key as given |
| Credentials.AuthHeader | nodes.py:107-112 | a header map is sent exactly when the key is truthy; it has the single field `Authorization`, and its bearer credential reads back as the key |
| Credentials.BearerCredential | nodes.py:110-112 | a credential read from a field means the field is `Bearer ` followed by that non-empty token |
| Credentials.ExplicitKeyWins | nodes.py:101-112 | a non-empty explicit key is sent as `Bearer <key>` whatever the URL and the environment |
| Credentials.EmptyKeyIsNoKey | nodes.py:101-108 | an empty explicit key produces the same header as no key |
| Credentials.EnvironmentFallback | nodes.py:101-108 | without an explicit key, CivitAI URLs carry `CIVITAI_TOKEN`, Hugging Face URLs carry `HUGGINGFACE_TOKEN`, and other URLs carry no header |
| PyStr.IsSpace | nodes.py:122 | the characters `str.isspace` accepts, which `strip()` removes |
| PyStr.LeadingSpaces | nodes.py:122 | counts exactly the white space before the first non-space character |
| PyStr.TrailingSpaces | nodes.py:122 | counts exactly the white space after the last non-space character |
| PyStr.RStrip | nodes.py:122 | the result is a prefix without trailing white space, and everything cut after it is white space |
| PyStr.Strip | nodes.py:122 | the result is the slice after the leading white space, it neither starts nor ends with white space, and everything cut after it is white space |
| PyStr.StripIdempotent | nodes.py:122 | stripping twice equals stripping once |
| PyStr.StripTrimmed | nodes.py:122 | a string with no white space at either end is unchanged by stripping |
| Disposition.RunEnd | nodes.py:120 | the greedy `[^"]+` run stops at the first quote or the end of the field |
| Disposition.MatchAt | nodes.py:120 | a match at a position exists exactly when `filename=` starts there and a non-quote character follows it or its opening quote; the group then starts at that character and is the whole run of non-quote characters up to the next quote or the end |
| Disposition.Search | nodes.py:120 | a search result is a non-empty group without quotes |
| Disposition.SearchIsLeftmost | nodes.py:120 | the search finds nothing exactly when no position matches; otherwise it returns the match at the leftmost matching position |
| Disposition.ExtractFilename | nodes.py:116-122 | a derived file name holds no quote and has no white space at either end |
| Disposition.NoMatchNoName | nodes.py:116-122 | no file name is derived exactly when the disposition field is absent or no position of it matches the pattern |
| Disposition.SearchSkipsPrefix | nodes.py:120 | positions where no `filename=` starts never start a match, so the search result is unchanged by skipping them |
| Disposition.QuotedFilename | nodes.py:118-122 | for `<pre>filename="<v>"<post>`, where no `filename=` starts inside `<pre>`, the file name is `v` stripped, without its quotes |
| Disposition.AttachmentExample | nodes.py:118-122 | `attachment; filename="foo.safetensors"` yields `foo.safetensors` |
| Disposition.UnquotedFilename | nodes.py:118-122 | for `<pre>filename=<v>`, where no `filename=` starts inside `<pre>` and `v` holds no quote, the file name is all of `v` stripped: an unquoted value runs to the end of the field, so later parameters become part of the name |
| Disposition.UnquotedExample | nodes.py:118-122 | `attachment; filename=a.bin; size=3` yields `a.bin; size=3` |
| Disposition.ExtendedParameterExample | nodes.py:118-122 | `attachment; filename*=UTF-8''x.bin; filename="x.bin"` yields `x.bin`: the extended parameter is passed over |
| Fetch.Join | nodes.py:124 | the destination path ends with the file name; a relative name comes after the folder and a separator, and an absolute name replaces the folder |
| Fetch.BlockSize | nodes.py:133 | for 1 to 12 chunks the block is a whole number of kibibytes between 1024 and 12288 bytes |
| Fetch.Delivered | nodes.py:137 | how many chunks the stream delivers: all of them without a fault, never more than the fault point with one |
| Fetch.Split | nodes.py:137 | the stream yields non-empty chunks of at most one block, and every chunk but the last is a full block |
| Fetch.ConcatLength | nodes.py:137-139 | the bytes written equal the sum the progress bar is advanced by |
| Fetch.SplitPrefix | nodes.py:136-139 | writing the first k chunks writes a prefix of the body, and writing all chunks writes the whole body |
| Fetch.SplitConcat | nodes.py:136-139 | the chunks join back to the body |
| Fetch.WriteChunks | nodes.py:136-139 | opening creates an empty file; the loop appends each delivered chunk in order, leaves every other path alone, completes exactly when the stream does not raise, and the progress count equals the file length |
| PyStr.IsIntText | nodes.py:132 | the text `int()` accepts in base 10: optional surrounding white space and sign, then digits with single underscores between them, at most 4300 digits under the default limit; text holding any of the separators U+001C..U+001F is refused, although `strip()` treats them as white space |
| PyStr.SeparatorRejected | nodes.py:132 | a U+001C..U+001F character anywhere in the size text is white space to `str.isspace` yet makes `int()` fail |
| PyStr.DigitCount | nodes.py:132 | the number of digits `int()` measures against its limit, never more than the length |
| PyStr.AllDigitsCount | nodes.py:132 | in a string of digits every character counts towards the limit |
| PyStr.DigitsAccepted | nodes.py:132 | a plain digit string is accepted exactly when it is non-empty and has at most 4300 digits; a longer `content-length` makes the size read fail and the run fall back |
| Fetch.ContentLengthOk | nodes.py:132 | the size read succeeds when the field is absent (it reads as 0) or holds text `int()` accepts, so a field holding an information separator (U+001C..U+001F) makes the write phase fail |
| Fetch.WritePhase | nodes.py:131-147 | the `try` block as a whole: the new files and whether it completed without raising |
| Fetch.WritePhaseKeepsOthers | nodes.py:131-147 | the write phase keeps every file already present at another path, with the same bytes |
| Fetch.WritePhaseResult | nodes.py:131-147 | the write phase completes exactly when the size parses, a chunk count is given and the stream does not raise. On completion the file holds the body. A failed size read or a missing chunk count writes nothing. Otherwise only the destination changes, and it holds a prefix of the body |
| OnDemand.ModelFolder | nodes.py:89 | a category's folder is its sub-directory of the models directory (also nodes.py:181 and nodes.py:274) |
| OnDemand.ChunksInRange | nodes.py:75 | the declared range 1 to 12 of `download_chunks`, which the host's input validation enforces, or no value at all |
| OnDemand.Finish | nodes.py:114-147 | the steps after the GET as one definition: a refused request, a 4xx/5xx status and a missing name raise, an existing file is loaded as it is, and otherwise the write phase decides between loading and falling back |
| OnDemand.Run | nodes.py:86-151 | the routine as one definition: a missing category raises `KeyError`, a miss falls back before any request, and otherwise one GET with the selected credential is followed by `Finish` |
| OnDemand.Complete | nodes.py:114-147 | the steps after the GET, written as statements with the chunk loop, compute exactly `Finish`'s outcome and filesystem |
| OnDemand.Download | nodes.py:86-151 | the lookup loop, the key rebinding, the GET and `Complete` compute exactly `Run` |
| OnDemand.LookupMissFallsBack | nodes.py:92-99 | no request is made exactly when the category is missing or the lookup finds no truthy URL; a missing category raises `KeyError`, and a miss falls back with the filesystem unchanged |
| OnDemand.RequestCarriesCredential | nodes.py:101-114 | the one request goes to the first match's non-empty URL, carries the header built from the selected key, and the rest of the run depends only on the server's answer to it |
| OnDemand.RaisesForStatus | nodes.py:115 | `raise_for_status` raises exactly for statuses 400 to 599 |
| OnDemand.EarlyErrorsPropagate | nodes.py:114-124 | a refused request, a 4xx/5xx status and a missing file name each raise out of the node and change no file |
| OnDemand.PresenceGuard | nodes.py:126-128 | when the destination exists, nothing is written and the loader gets the existing file |
| OnDemand.DownloadStoresBody | nodes.py:126-147 | when the destination is missing, the run either loads after storing exactly the body (iff the write phase completes), or falls back leaving the files as they were or a prefix of the body at the destination |
| OnDemand.LoaderGetsPresentFile | nodes.py:124-151 | whenever the loader is called, it gets the file name from the response, and the path that name joins to from the category's folder is present (outside the folder for an absolute name) |
| OnDemand.ExistingFilesUntouched | nodes.py:126-147 | no file that existed before a run is changed or removed by it |
| OnDemand.SecondRunSkipsWrite | nodes.py:114-128 | after a run that loaded, a second identical run issues the same request; whatever the second answer is, if it is a success naming the same file, the run writes nothing and loads that file again |
| OnDemand.SameAnswerSameRun | nodes.py:114-128 | when the server answers the repeated request as before, the second run equals the first, with nothing written |
| OnDemand.DefaultTable | nodes.py:28-39 | with the built-in table, the LoRA node offers `Lora n1` and `Lora n2`; the other two nodes offer nothing, and running them raises `KeyError` |
| OnDemand.DownloadLora | nodes.py:86-151 | the LoRA node is the routine for `loras`: a miss or a failed write returns `(model, clip)` unchanged, exceptions propagate, and a load returns what the LoRA loader returns or raises for the downloaded name and both strengths |
| OnDemand.DownloadUnet | nodes.py:178-243 | the UNET node is the routine for `diffusion_models`: it falls back to `None`, and a load returns the UNET loader's result for the downloaded name and weight type, or propagates its exception |
| OnDemand.DownloadCheckpoint | nodes.py:271-335 | the checkpoint node is the routine for `checkpoints`: it falls back to `None`, and a load returns the checkpoint loader's result for the downloaded name, or propagates its exception |

## Left out

- Reading `config.json` (nodes.py:23-56) is file I/O and JSON parsing. The table is a parameter, and only the built-in default table is modelled.
- Malformed records are not modelled. Every record is assumed to have string `name` and `url` fields, and the category value is assumed to be a list.
- Networking is not modelled: connections, redirects, transfer and content encodings. The server is a function from request to response, and its body is the decoded bytes.
- A body stream is assumed to yield full blocks followed by a shorter last block.
- `tqdm` is reduced to a ghost counter of delivered bytes. Its total is only checked to parse as an integer. The progress bar is built inside the `try`, so if its construction raised for an extreme total the run would fall back; no such failure is modelled.
- Logging is not modelled.
- `folder_paths.models_dir` is a parameter.
- `os.makedirs` is not modelled, nor are directories, symbolic links or path normalisation. A path exists exactly when it is a key of the filesystem map.
- A file name that denotes a directory is treated as missing. Examples are `""` (from `filename=" "`), `.` and `..`. The source sees the just-created folder or its parent as existing, skips the write and passes the name to the loader. The model instead writes the body at that path and loads the name.
- OS failures of `open` and `write` (permissions, full disk) are not modelled.
- The host loaders `LoraLoader`, `UNETLoader` and `CheckpointLoaderSimple` are function parameters. Each returns a value or raises, and the node passes either on. Why a loader fails is not modelled; one example is a truncated file left by an earlier failed write.
- The assignment of a fresh loader to `self.*_loader` is not modelled, because no model state depends on it.
- Strengths and `weight_dtype` are opaque type parameters. The `INPUT_TYPES` widget ranges other than the names and `download_chunks` are not modelled.
- Concurrent runs writing the same file are not modelled.
- `__init__.py` only registers the node classes and is not part of this model.
- Fetch.Join follows `posixpath.join`, the joining used on POSIX hosts. On Windows `os.path.join` is `ntpath.join`, which also treats `\` as a separator and handles drive letters (`C:x`, `\tmp\x`); Windows path joining is not modelled.
- PyStr.IsIntText accepts only ASCII digits. Python's `int()` also accepts other Unicode decimal digits, which this model rejects. The digit limit is fixed at the default of 4300. Changing it through `sys.set_int_max_str_digits` or `PYTHONINTMAXSTRDIGITS` is not modelled, nor are Python versions without the limit.
- Fetch.SplitPrefix does not state that a partial file is a whole number of blocks, only that it is a prefix of the body.
