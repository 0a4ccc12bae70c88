/** `generate_fmu` of src/autofmu/generator.py together with the part of
    `compile_fmu` (src/autofmu/utils.py) that puts the compiled library into
    the archive: which entries the FMU archive receives, under which paths
    and in which order, and where the process stops on an error.

    Everything the source obtains from the outside world is a parameter: the
    guid and the time stamp, the package version, the header files that the
    glob finds, whether the regression fit returns, the host platform, and
    what the CMake configure and build steps did. Entry contents are named,
    not serialised. */
module Packaging {
  import opened Wrappers
  import opened Paths
  import opened Slug
  import opened Build
  import opened ModelDescription

  /** What an archive entry holds. */
  datatype Content =
    | DescriptionDocument(tree: Element)     // the serialised model description
    | CopiedFile(sourcePath: string)         // a file copied from disk
    | GeneratedSource(guid: string, inputs: seq<string>, outputs: seq<string>)  // the instantiated C template

  datatype Entry = Entry(path: string, content: Content)

  /** The ways `generate_fmu` can stop early. */
  datatype FmuError =
    | InvalidText                        // `ValueError` from lxml for a value it refuses
    | UnknownStrategy(strategy: string)  // `KeyError` from the strategy table
    | FitFailed                          // an exception from `linear_regression`
    | ConfigureFailed                    // `CalledProcessError` from `cmake -S … -B …`
    | BuildFailed                        // `CalledProcessError` from `cmake --build`
    | NoLibraryFound                     // `StopIteration` from `next(glob(…))`

  /** `sys.maxsize` and `platform.system()` of the host. */
  datatype Host = Host(system: string, maxSize: nat)

  /** What the two CMake steps did and which files the build directory holds
      afterwards, in the order the directory listing gives them. */
  datatype BuildRun = BuildRun(configureSucceeded: bool, buildSucceeded: bool, products: seq<string>)

  /** The arguments of `generate_fmu` that the packaging depends on. */
  datatype Request = Request(modelName: string, inputs: seq<string>, outputs: seq<string>, strategy: string)

  /** Everything else: the `uuid4` guid, the package version, the time stamp,
      the header files found under `sources/headers`, whether the regression
      returns (it raises for a column the data frame lacks, or data
      scikit-learn cannot fit, such as an empty table), the host and the
      build, and the Unicode tables `slugify` consults. */
  datatype Environment = Environment(
    guid: string, toolVersion: string, timestamp: string, headers: seq<string>,
    fitSucceeded: bool, host: Host, build: BuildRun, unicode: UnicodeDb)

  const DescriptionPath: string := "modelDescription.xml"
  const SourcePath: string := "sources/fmi2Functions.c"
  const HeaderDir: string := "sources/headers/"

  /** The keys of the `strategies` table. */
  const Strategies: set<string> := {"linear"}

  /** An archive being written: the entries in the order they were added.
      Writing a path twice adds a second entry, as `zipfile` does. */
  class ZipArchive {
    var entries: seq<Entry>

    constructor ()
      ensures entries == []
    {
      entries := [];
    }

    method Write(path: string, content: Content)
      modifies this
      ensures entries == old(entries) + [Entry(path, content)]
    {
      entries := entries + [Entry(path, content)];
    }
  }

  // ---------------------------------------------------------------------
  // The archive as a value.

  function ModelIdentifier(request: Request, env: Environment): string {
    Slugify(request.modelName, false, env.unicode)
  }

  function DescriptionOf(request: Request, env: Environment): Element {
    Description(request.modelName, ModelIdentifier(request, env), env.guid, env.toolVersion,
                env.timestamp, request.inputs, request.outputs)
  }

  /** lxml accepts every attribute value of the description. */
  predicate Describes(request: Request, env: Environment) {
    Describable(request.modelName, ModelIdentifier(request, env), env.guid, env.toolVersion,
                env.timestamp, request.inputs, request.outputs)
  }

  /** The `with` block gets as far as writing the generated source. */
  predicate SourceWritten(request: Request, env: Environment) {
    Describes(request, env) && request.strategy in Strategies && env.fitSucceeded
  }

  /** `fmu.write(str(header), f"sources/headers/{header.name}")`. */
  function HeaderEntry(header: string): Entry {
    Entry(HeaderDir + Basename(header), CopiedFile(header))
  }

  function HeaderEntries(headers: seq<string>): seq<Entry> {
    seq(|headers|, i requires 0 <= i < |headers| => HeaderEntry(headers[i]))
  }

  lemma HeaderEntriesAppend(headers: seq<string>, header: string)
    ensures HeaderEntries(headers + [header]) == HeaderEntries(headers) + [HeaderEntry(header)]
  {
  }

  /** The glob `{model_identifier}.*`: a file whose name is the identifier,
      a dot and anything after it. */
  predicate MatchesLibraryGlob(path: string, modelIdentifier: string) {
    var name := Basename(path);
    |name| > |modelIdentifier| && name[..|modelIdentifier| + 1] == modelIdentifier + "."
  }

  /** The position of the first product from `start` on that matches,
      `|products|` when none does. */
  function FirstMatch(products: seq<string>, modelIdentifier: string, start: nat): (i: nat)
    requires start <= |products|
    ensures start <= i <= |products|
    ensures forall j :: start <= j < i ==> !MatchesLibraryGlob(products[j], modelIdentifier)
    ensures i < |products| ==> MatchesLibraryGlob(products[i], modelIdentifier)
    decreases |products| - start
  {
    if start == |products| || MatchesLibraryGlob(products[start], modelIdentifier) then start
    else FirstMatch(products, modelIdentifier, start + 1)
  }

  /** `next(glob(…))`: the first product that matches, if any. */
  function FirstLibrary(products: seq<string>, modelIdentifier: string): (r: Option<string>)
    ensures r.None? <==> forall i :: 0 <= i < |products| ==> !MatchesLibraryGlob(products[i], modelIdentifier)
    ensures r.Some? ==> exists i :: 0 <= i < |products| && products[i] == r.value
                          && MatchesLibraryGlob(r.value, modelIdentifier)
                          && forall j :: 0 <= j < i ==> !MatchesLibraryGlob(products[j], modelIdentifier)
  {
    var i := FirstMatch(products, modelIdentifier, 0);
    if i < |products| then Some(products[i]) else None
  }

  function LibraryEntry(host: Host, library: string, u: UnicodeDb): Entry {
    Entry(LibraryEntryPath(host.system, host.maxSize, library, u), CopiedFile(library))
  }

  /** The library entry `compile_fmu` would add, or why it adds none. */
  function CompileStage(modelIdentifier: string, env: Environment): Result<Entry, FmuError> {
    if !env.build.configureSucceeded then Failure(ConfigureFailed)
    else if !env.build.buildSucceeded then Failure(BuildFailed)
    else match FirstLibrary(env.build.products, modelIdentifier)
      case None => Failure(NoLibraryFound)
      case Some(library) => Success(LibraryEntry(env.host, library, env.unicode))
  }

  /** The entries the `with ZipFile(outfile, "w")` block writes, and whether
      it got to its end. The archive is closed on the way out of the block
      whatever stops it, so it keeps what was written before. */
  function WriteStage(request: Request, env: Environment): (Result<(), FmuError>, seq<Entry>) {
    if !Describes(request, env) then (Failure(InvalidText), [])
    else
      var written := [Entry(DescriptionPath, DescriptionDocument(DescriptionOf(request, env)))]
                     + HeaderEntries(env.headers);
      if request.strategy !in Strategies then (Failure(UnknownStrategy(request.strategy)), written)
      else if !env.fitSucceeded then (Failure(FitFailed), written)
      else (Success(()), written + [Entry(SourcePath, GeneratedSource(env.guid, request.inputs, request.outputs))])
  }

  /** The outcome of `generate_fmu` and the entries of the archive it leaves
      at `outfile`. */
  function Fmu(request: Request, env: Environment): (Result<(), FmuError>, seq<Entry>) {
    var (written, entries) := WriteStage(request, env);
    if written.Failure? then (written, entries)
    else match CompileStage(ModelIdentifier(request, env), env)
      case Failure(e) => (Failure(e), entries)
      case Success(library) => (Success(()), entries + [library])
  }

  // ---------------------------------------------------------------------
  // The steps as the source takes them.

  /** The archive part of `compile_fmu`: after both CMake steps, the first
      library the glob finds is appended under the platform directory. */
  method CompileFmu(modelIdentifier: string, fmu: ZipArchive, env: Environment) returns (r: Result<(), FmuError>)
    modifies fmu
    ensures CompileStage(modelIdentifier, env).Success? ==>
              r == Success(()) && fmu.entries == old(fmu.entries) + [CompileStage(modelIdentifier, env).value]
    ensures CompileStage(modelIdentifier, env).Failure? ==>
              r == Failure(CompileStage(modelIdentifier, env).error) && fmu.entries == old(fmu.entries)
  {
    if !env.build.configureSucceeded {
      return Failure(ConfigureFailed);
    }
    if !env.build.buildSucceeded {
      return Failure(BuildFailed);
    }
    var library := FirstLibrary(env.build.products, modelIdentifier);
    if library.None? {
      return Failure(NoLibraryFound);
    }
    var buildDir := PlatformDir(env.host.system, env.host.maxSize, env.unicode);
    fmu.Write(buildDir + "/" + Basename(library.value), CopiedFile(library.value));
    r := Success(());
  }

  /** `for header in headers: fmu.write(…)`. */
  method WriteHeaders(headers: seq<string>, fmu: ZipArchive)
    modifies fmu
    ensures fmu.entries == old(fmu.entries) + HeaderEntries(headers)
  {
    ghost var before := fmu.entries;
    var i := 0;
    while i < |headers|
      invariant 0 <= i <= |headers|
      invariant fmu.entries == before + HeaderEntries(headers[..i])
    {
      var header := headers[i];
      fmu.Write(HeaderDir + Basename(header), CopiedFile(header));
      assert headers[..i + 1] == headers[..i] + [header];
      HeaderEntriesAppend(headers[..i], header);
      i := i + 1;
    }
    assert headers[..i] == headers;
  }

  /** The `with ZipFile(outfile, "w")` block of `generate_fmu`: the
      description, the headers, the strategy lookup and the fit, the
      source. */
  method WriteSources(request: Request, env: Environment, fmu: ZipArchive) returns (r: Result<(), FmuError>)
    requires fmu.entries == []
    modifies fmu
    ensures (r, fmu.entries) == WriteStage(request, env)
  {
    var modelIdentifier := Slugify(request.modelName, false, env.unicode);
    var description := GenerateModelDescription(request.modelName, modelIdentifier, env.guid, env.toolVersion,
                                                env.timestamp, request.inputs, request.outputs);
    if description.Failure? {
      return Failure(InvalidText);
    }
    fmu.Write(DescriptionPath, DescriptionDocument(description.value));
    WriteHeaders(env.headers, fmu);
    assert description.value == DescriptionOf(request, env);
    assert fmu.entries == [Entry(DescriptionPath, DescriptionDocument(DescriptionOf(request, env)))]
                          + HeaderEntries(env.headers);
    if request.strategy !in Strategies {
      return Failure(UnknownStrategy(request.strategy));
    }
    if !env.fitSucceeded {
      return Failure(FitFailed);
    }
    fmu.Write(SourcePath, GeneratedSource(env.guid, request.inputs, request.outputs));
    r := Success(());
  }

  /** `generate_fmu`: write the archive, then compile it if writing got to
      the end. */
  method GenerateFmu(request: Request, env: Environment) returns (fmu: ZipArchive, r: Result<(), FmuError>)
    ensures fresh(fmu)
    ensures (r, fmu.entries) == Fmu(request, env)
  {
    var modelIdentifier := Slugify(request.modelName, false, env.unicode);
    fmu := new ZipArchive();
    r := WriteSources(request, env, fmu);
    if r.Failure? {
      return;
    }
    r := CompileFmu(modelIdentifier, fmu, env);
  }

  // ---------------------------------------------------------------------
  // What the archive looks like.

  function EntryPaths(entries: seq<Entry>): (paths: seq<string>)
    ensures |paths| == |entries| && forall i :: 0 <= i < |entries| ==> paths[i] == entries[i].path
  {
    seq(|entries|, i requires 0 <= i < |entries| => entries[i].path)
  }

  function HeaderNames(headers: seq<string>): (names: seq<string>)
    ensures |names| == |headers| && forall i :: 0 <= i < |headers| ==> names[i] == Basename(headers[i])
  {
    seq(|headers|, i requires 0 <= i < |headers| => Basename(headers[i]))
  }

  predicate Distinct(xs: seq<string>) {
    forall i, j :: 0 <= i < j < |xs| ==> xs[i] != xs[j]
  }

  /** The checks that can stop `generate_fmu`, in the order they are met:
      the description's texts, the strategy name, the fit, the configure
      step, the build step, the library lookup. */
  lemma OutcomeOrder(request: Request, env: Environment)
    ensures Fmu(request, env).0 ==
      if !Describes(request, env) then Failure(InvalidText)
      else if request.strategy != "linear" then Failure(UnknownStrategy(request.strategy))
      else if !env.fitSucceeded then Failure(FitFailed)
      else if !env.build.configureSucceeded then Failure(ConfigureFailed)
      else if !env.build.buildSucceeded then Failure(BuildFailed)
      else if FirstLibrary(env.build.products, ModelIdentifier(request, env)).None? then Failure(NoLibraryFound)
      else Success(())
  {
  }

  /** What the `with` block leaves: nothing when lxml refuses a text;
      otherwise the description, the headers in the order found under
      `sources/headers/`, and the source only when the strategy is known and
      the fit returns. */
  lemma WriteStageLayout(request: Request, env: Environment)
    ensures var (w, written) := WriteStage(request, env);
      var n := |env.headers|;
      && (w.Success? <==> SourceWritten(request, env))
      && (!Describes(request, env) ==> w == Failure(InvalidText) && written == [])
      && (Describes(request, env) ==>
            && |written| == (if SourceWritten(request, env) then 2 + n else 1 + n)
            && written[0] == Entry(DescriptionPath, DescriptionDocument(DescriptionOf(request, env)))
            && (forall i :: 0 <= i < n ==> written[1 + i] == Entry(HeaderDir + Basename(env.headers[i]), CopiedFile(env.headers[i])))
            && (request.strategy !in Strategies ==> w == Failure(UnknownStrategy(request.strategy)))
            && (request.strategy in Strategies && !env.fitSucceeded ==> w == Failure(FitFailed))
            && (w.Success? ==> written[1 + n] == Entry(SourcePath, GeneratedSource(env.guid, request.inputs, request.outputs))))
  {
    var written := [Entry(DescriptionPath, DescriptionDocument(DescriptionOf(request, env)))]
                   + HeaderEntries(env.headers);
    assert forall i :: 0 <= i < |env.headers| ==> written[1 + i] == HeaderEntry(env.headers[i]);
  }

  /** Entry order: the description first, then one entry per header under
      `sources/headers/` in the order found; on success the generated
      source and the library follow. A text lxml refuses leaves the archive
      empty; an unknown strategy or a failed fit leaves the description and
      the headers; a failed build leaves the source as well. */
  lemma ArchiveLayout(request: Request, env: Environment)
    ensures var (r, entries) := Fmu(request, env);
      var n := |env.headers|;
      && (r == Failure(InvalidText) <==> !Describes(request, env))
      && (!Describes(request, env) ==> entries == [])
      && (Describes(request, env) ==>
            && |entries| >= 1 + n
            && entries[0] == Entry("modelDescription.xml", DescriptionDocument(DescriptionOf(request, env)))
            && (forall i :: 0 <= i < n ==> entries[1 + i] == Entry("sources/headers/" + Basename(env.headers[i]), CopiedFile(env.headers[i]))))
      && (r == Failure(UnknownStrategy(request.strategy)) <==> Describes(request, env) && request.strategy !in Strategies)
      && (r == Failure(FitFailed) <==> Describes(request, env) && request.strategy in Strategies && !env.fitSucceeded)
      && (Describes(request, env) && !SourceWritten(request, env) ==> |entries| == 1 + n)
      && (SourceWritten(request, env) ==>
            |entries| >= 2 + n
            && entries[1 + n] == Entry("sources/fmi2Functions.c", GeneratedSource(env.guid, request.inputs, request.outputs)))
      && (SourceWritten(request, env) && r.Failure? ==> |entries| == 2 + n)
      && (r.Success? ==>
            |entries| == 3 + n
            && var library := FirstLibrary(env.build.products, ModelIdentifier(request, env));
            && library.Some?
            && entries[2 + n] == Entry(LibraryEntryPath(env.host.system, env.host.maxSize, library.value, env.unicode),
                                       CopiedFile(library.value)))
  {
    WriteStageLayout(request, env);
    var (w, written) := WriteStage(request, env);
    var (r, entries) := Fmu(request, env);
    assert entries[..|written|] == written;
  }

  /** The model identifier everywhere in the description is the ASCII slug
      of the model name. */
  lemma DescriptionUsesSlug(request: Request, env: Environment)
    ensures IsSlug(ModelIdentifier(request, env))
    ensures Describes(request, env) ==>
      var tree := Fmu(request, env).1[0].content.tree;
      && FindChild(tree, "ModelExchange").Some?
      && Attr(FindChild(tree, "ModelExchange").value, "modelIdentifier") == Some(Slugify(request.modelName, false, env.unicode))
      && Attr(tree, "modelName") == Some(request.modelName)
  {
    ArchiveLayout(request, env);
    SlugifyIsSlug(request.modelName, env.unicode);
    InterfacesDeclareSourceFile(request.modelName, ModelIdentifier(request, env), env.guid, env.toolVersion,
                                env.timestamp, request.inputs, request.outputs);
    RootOfDescription(request.modelName, ModelIdentifier(request, env), env.guid, env.toolVersion,
                      env.timestamp, request.inputs, request.outputs);
  }

  /** The identifier is a slug, which lxml always accepts, so only the
      model name, the guid, the version, the time stamp or a variable name
      can stop the description. */
  lemma DescribesIff(request: Request, env: Environment)
    ensures Describes(request, env) <==>
      && XmlText(request.modelName) && XmlText(env.guid) && XmlText(env.toolVersion) && XmlText(env.timestamp)
      && AllXmlText(request.inputs) && AllXmlText(request.outputs)
  {
    var id := ModelIdentifier(request, env);
    SlugifyIsSlug(request.modelName, env.unicode);
    DescribableIff(request.modelName, id, env.guid, env.toolVersion, env.timestamp, request.inputs, request.outputs);
    assert XmlText(id);
  }

  /** The library that goes in is named `{model_identifier}.{something}`,
      and sits in the platform directory under its own name. */
  lemma LibraryNamedAfterIdentifier(request: Request, env: Environment)
    requires Fmu(request, env).0.Success?
    ensures var entries := Fmu(request, env).1;
      var id := ModelIdentifier(request, env);
      var name := Basename(entries[|entries| - 1].path);
      && name[..|id| + 1] == id + "."
      && entries[|entries| - 1].path == PlatformDir(env.host.system, env.host.maxSize, env.unicode) + "/" + name
  {
    ArchiveLayout(request, env);
    var library := FirstLibrary(env.build.products, ModelIdentifier(request, env)).value;
    LibraryEntrySplits(env.host.system, env.host.maxSize, library, env.unicode);
  }

  /** A header path never coincides with one of the fixed paths. */
  lemma HeaderPathIsNotFixed(name: string, system: string, maxSize: nat, library: string, u: UnicodeDb)
    ensures HeaderDir + name != DescriptionPath
    ensures HeaderDir + name != SourcePath
    ensures HeaderDir + name != LibraryEntryPath(system, maxSize, library, u)
  {
    var p := HeaderDir + name;
    assert p[0] == 's' && p[8] == 'h';
    assert DescriptionPath[0] == 'm';
    assert SourcePath[8] == 'f';
    assert LibraryEntryPath(system, maxSize, library, u)[0] == 'b';
  }

  /** Prefixing with the same directory keeps names apart. */
  lemma HeaderPathsDistinct(headers: seq<string>)
    ensures Distinct(EntryPaths(HeaderEntries(headers))) <==> Distinct(HeaderNames(headers))
  {
    var paths, names := EntryPaths(HeaderEntries(headers)), HeaderNames(headers);
    forall i, j | 0 <= i < j < |headers|
      ensures paths[i] == paths[j] <==> names[i] == names[j]
    {
      assert paths[i] == HeaderDir + names[i] && paths[j] == HeaderDir + names[j];
      if paths[i] == paths[j] {
        assert names[i] == paths[i][|HeaderDir|..] == paths[j][|HeaderDir|..] == names[j];
      }
    }
  }

  /** The paths of a complete archive, given where the library went. */
  function CompletePaths(headers: seq<string>, libraryPath: string): seq<string> {
    [DescriptionPath] + EntryPaths(HeaderEntries(headers)) + [SourcePath, libraryPath]
  }

  /** Three fixed paths around a list that holds none of them. */
  lemma {:induction false} FramedDistinct(first: string, middle: seq<string>, second: string, third: string)
    requires first != second && first != third && second != third
    requires forall i :: 0 <= i < |middle| ==> middle[i] != first && middle[i] != second && middle[i] != third
    ensures Distinct([first] + middle + [second, third]) <==> Distinct(middle)
  {
    var all := [first] + middle + [second, third];
    var n := |middle|;
    assert forall i :: 0 <= i < n ==> all[i + 1] == middle[i];
    if Distinct(middle) {
      forall i, j | 0 <= i < j < |all|
        ensures all[i] != all[j]
      {
        if 1 <= i && j <= n {
          assert all[i] == middle[i - 1] && all[j] == middle[j - 1];
        }
      }
    } else {
      var i, j :| 0 <= i < j < n && middle[i] == middle[j];
      assert all[i + 1] == all[j + 1];
    }
  }

  lemma CompletePathsDistinct(headers: seq<string>, libraryPath: string)
    requires libraryPath != [] && libraryPath[0] == 'b'
    ensures Distinct(CompletePaths(headers, libraryPath)) <==> Distinct(HeaderNames(headers))
  {
    var headerPaths := EntryPaths(HeaderEntries(headers));
    forall i | 0 <= i < |headers|
      ensures headerPaths[i] != DescriptionPath && headerPaths[i] != SourcePath && headerPaths[i] != libraryPath
    {
      var p := headerPaths[i];
      assert p == HeaderDir + Basename(headers[i]);
      assert p[0] == 's' && p[8] == 'h';
      assert DescriptionPath[0] == 'm' && SourcePath[8] == 'f';
    }
    assert DescriptionPath[0] != SourcePath[0];
    assert SourcePath[0] != libraryPath[0];
    FramedDistinct(DescriptionPath, headerPaths, SourcePath, libraryPath);
    HeaderPathsDistinct(headers);
  }

  /** A complete archive holds the fixed paths, the header paths and the
      library path in the platform directory. */
  lemma ArchivePaths(request: Request, env: Environment)
    requires Fmu(request, env).0.Success?
    ensures var library := FirstLibrary(env.build.products, ModelIdentifier(request, env));
      && library.Some?
      && var libraryPath := LibraryEntryPath(env.host.system, env.host.maxSize, library.value, env.unicode);
      && libraryPath != [] && libraryPath[0] == 'b'
      && EntryPaths(Fmu(request, env).1) == CompletePaths(env.headers, libraryPath)
  {
    CompleteLayout(request, env);
    var library := FirstLibrary(env.build.products, ModelIdentifier(request, env)).value;
    var libraryPath := LibraryEntryPath(env.host.system, env.host.maxSize, library, env.unicode);
    PathsOfLayout(Fmu(request, env).1, env.headers, libraryPath);
  }

  /** The paths of a complete archive, entry by entry. */
  lemma CompleteLayout(request: Request, env: Environment)
    requires Fmu(request, env).0.Success?
    ensures var entries := Fmu(request, env).1;
      var n := |env.headers|;
      var library := FirstLibrary(env.build.products, ModelIdentifier(request, env));
      && library.Some?
      && |entries| == 3 + n
      && entries[0].path == DescriptionPath
      && (forall i :: 0 <= i < n ==> entries[1 + i].path == HeaderDir + Basename(env.headers[i]))
      && entries[1 + n].path == SourcePath
      && entries[2 + n].path == LibraryEntryPath(env.host.system, env.host.maxSize, library.value, env.unicode)
  {
    ArchiveLayout(request, env);
  }

  lemma PathsOfLayout(entries: seq<Entry>, headers: seq<string>, libraryPath: string)
    requires |entries| == |headers| + 3
    requires entries[0].path == DescriptionPath
    requires forall i :: 0 <= i < |headers| ==> entries[1 + i].path == HeaderDir + Basename(headers[i])
    requires entries[|headers| + 1].path == SourcePath && entries[|headers| + 2].path == libraryPath
    ensures EntryPaths(entries) == CompletePaths(headers, libraryPath)
  {
    var expected := CompletePaths(headers, libraryPath);
    forall i | 0 <= i < |entries|
      ensures EntryPaths(entries)[i] == expected[i]
    {
      if 1 <= i <= |headers| {
        assert expected[i] == EntryPaths(HeaderEntries(headers))[i - 1];
      }
    }
  }

  /** A complete archive has every path once exactly when the headers have
      different file names: nothing checks for a clash, and two headers
      with the same name in different directories give two entries with the
      same path. */
  lemma UniquePathsIffDistinctHeaderNames(request: Request, env: Environment)
    requires Fmu(request, env).0.Success?
    ensures Distinct(EntryPaths(Fmu(request, env).1)) <==> Distinct(HeaderNames(env.headers))
  {
    ArchivePaths(request, env);
    var library := FirstLibrary(env.build.products, ModelIdentifier(request, env)).value;
    CompletePathsDistinct(env.headers, LibraryEntryPath(env.host.system, env.host.maxSize, library, env.unicode));
  }

  /** No path the archive uses spells `sources/{id}.c` for a slug `id`: a
      header path has `headers/` where the identifier would start, and
      `fmi2Functions` has a capital letter. */
  lemma DeclaredPathIsNotPackaged(id: string)
    requires IsSlug(id)
    ensures forall name :: HeaderDir + name != "sources/" + id + ".c"
    ensures SourcePath != "sources/" + id + ".c"
  {
    var declared := "sources/" + id + ".c";
    assert SourcePath != declared by {
      if |declared| == |SourcePath| {
        assert declared[12] == id[4] && SourcePath[12] == 'F';
      }
    }
    forall name ensures HeaderDir + name != declared {
      var p := HeaderDir + name;
      assert p[15] == '/';
      if |declared| > 15 {
        assert declared[15] == if |id| > 7 then id[7] else if |id| == 7 then '.' else 'c';
      }
    }
  }

  lemma {:induction false} DeclaredNotAmong(entries: seq<Entry>, headers: seq<string>, id: string)
    requires IsSlug(id)
    requires 1 + |headers| <= |entries| <= 3 + |headers|
    requires entries[0].path == DescriptionPath
    requires forall i :: 0 <= i < |headers| ==> entries[1 + i].path == HeaderDir + Basename(headers[i])
    requires |entries| > 1 + |headers| ==> entries[1 + |headers|].path == SourcePath
    requires |entries| > 2 + |headers| ==> entries[2 + |headers|].path != [] && entries[2 + |headers|].path[0] == 'b'
    ensures forall i :: 0 <= i < |entries| ==> entries[i].path != "sources/" + id + ".c"
  {
    var declared := "sources/" + id + ".c";
    DeclaredPathIsNotPackaged(id);
    assert declared[0] == 's';
    forall i | 0 <= i < |entries|
      ensures entries[i].path != declared
    {
      if i == 0 {
        assert entries[i].path[0] == 'm';
      } else if i <= |headers| {
        assert entries[i].path == HeaderDir + Basename(headers[i - 1]);
      }
    }
  }

  /** `sources/{model_identifier}.c`, the file both interfaces declare, is
      not an entry of the archive, whatever the outcome: the source goes to
      `sources/fmi2Functions.c` instead. */
  lemma DeclaredSourceFileNotInArchive(request: Request, env: Environment)
    ensures var declared := "sources/" + ModelIdentifier(request, env) + ".c";
      forall i :: 0 <= i < |Fmu(request, env).1| ==> Fmu(request, env).1[i].path != declared
  {
    var id := ModelIdentifier(request, env);
    ArchivePathShape(request, env);
    assert IsSlug(id) by { SlugifyIsSlug(request.modelName, env.unicode); }
    if Fmu(request, env).1 != [] {
      DeclaredNotAmong(Fmu(request, env).1, env.headers, id);
    }
  }

  /** The paths of the archive for any outcome. */
  lemma ArchivePathShape(request: Request, env: Environment)
    ensures var entries := Fmu(request, env).1;
      var n := |env.headers|;
      && (Describes(request, env) <==> entries != [])
      && (entries != [] ==>
      && 1 + n <= |entries| <= 3 + n
      && entries[0].path == DescriptionPath
      && (forall i :: 0 <= i < n ==> entries[1 + i].path == HeaderDir + Basename(env.headers[i]))
      && (|entries| > 1 + n ==> entries[1 + n].path == SourcePath)
      && (|entries| > 2 + n ==> entries[2 + n].path != [] && entries[2 + n].path[0] == 'b'))
  {
    ArchiveLayout(request, env);
    var entries := Fmu(request, env).1;
    if |entries| > 2 + |env.headers| {
      var library := FirstLibrary(env.build.products, ModelIdentifier(request, env)).value;
      assert entries[2 + |env.headers|].path == LibraryEntryPath(env.host.system, env.host.maxSize, library, env.unicode);
    }
  }
}
