# autofmu in Dafny

autofmu turns a table of measurements into an FMI 2.0 Functional Mock-up
Unit (FMU): a zip archive holding a `modelDescription.xml`, the FMI header
files, a generated C implementation `fmi2Functions.c` and the library
compiled from it. This project models the core of that pipeline and proves
properties about it:

- `slugify`, which derives the model identifier from the model name
  (`slug.dfy`; the test table's rows in `slug_examples.dfy`);
- `generate_model_description`, the FMI 2.0 description tree: a pure
  specification `Description` and the loop that builds it, proved to agree
  (`model_description.dfy`, with `decimal.dfy` for `str(index)`);
- `generate_fmu` and the archive part of `compile_fmu`: the paths, the
  order and the contents of the archive entries, and where the process
  stops on an error. The archive is a class whose `Write` appends an entry
  (`packaging.dfy`, `build.dfy` for the platform directory, `paths.dfy` for
  `Path.name`);
- the generated `fmi2Functions.c` for a given guid, inputs and outputs:
  `fmi2Instantiate`'s checks, the `VARIABLES` buffer that `fmi2SetReal`
  writes, the `R` table that `fmi2GetReal` reads, and the entry points that
  do nothing (`fmi2_functions.dfy`);
- how the description and the C file fit together (`consistency.dfy`).

The parts the source gets from outside are parameters:

- the Unicode tables (`UnicodeDb`: NFKC, NFKD, `str.lower`, `\w`, `\s`);
- the `uuid4` guid, the package version and the `utcnow` time stamp;
- the header files the glob finds;
- whether the regression raises (src/autofmu/strategies.py:34-36);
- `platform.system()` and `sys.maxsize`;
- whether the two CMake steps succeed and which files the build directory
  then lists.

What the code does, as the model has it:

- A slug may keep interior underscores (`strip__underscore-value`,
  tests/test_utils.py:14). The substitution at src/autofmu/utils.py:34 turns
  only dashes and whitespace into `-`, and `strip("-_")` removes underscores
  only at the ends, as the docstring at src/autofmu/utils.py:14-19 says. The
  ASCII-mode alphabet is therefore `[a-z0-9_-]`.
- `"İstanbul"` becomes `"istanbul"` in both modes. tests/test_utils.py:22
  runs it in Unicode mode (`SlugTestRow22`); in ASCII mode NFKD splits off a
  combining dot that the ASCII encoding drops (`SlugAsciiIstanbul`).
- There is no check for clashing archive paths. Two headers with the same
  file name give two entries with one path (`UniquePathsIffDistinctHeaderNames`).
- A complete archive has `3 + n` entries for `n` headers:
  - the description;
  - the `n` headers;
  - the source;
  - the library.
- The source lives at `sources/fmi2Functions.c` and the library at
  `build/{platform}/{library name}`.
- A failing step leaves what was already written in the archive, because
  the `with` block closes it on the way out:
  - a text lxml refuses in the description leaves it empty;
  - an unknown strategy, or a fit that raises, leaves the description and
    the headers;
  - a failed build also leaves the source.

## Model

| member | source | states |
|---|---|---|
| Slug.EncodeAsciiIgnoreKeepsAscii | src/autofmu/utils.py:28-32 | encoding to ASCII with `ignore` keeps only ASCII characters, all taken from the input, and changes nothing on ASCII input |
| Slug.KeepSlugSourceKeeps | src/autofmu/utils.py:33 | the first substitution keeps exactly the `[\w\s-]` characters, and changes nothing when all characters are of that class |
| Slug.CollapseRunShape | src/autofmu/utils.py:34 | after `re.sub(r"[-\s]+", "-", …)` no separator other than `-` remains, no two `-` are adjacent, and the result starts with `-` exactly when the input starts with a separator |
| Slug.CollapseSeparatorsShape | src/autofmu/utils.py:34 | the collapsed text holds only `-` and non-separator characters of the input, with no `--` |
| Slug.StripLeading | src/autofmu/utils.py:34 | the leading part of `strip("-_")`: a suffix of the input that does not start with `-` or `_` |
| Slug.StripTrailing | src/autofmu/utils.py:34 | the trailing part of `strip("-_")`: a prefix of the input that does not end with `-` or `_` |
| Slug.Prepared | src/autofmu/utils.py:24-33 | in ASCII mode the text the regular expressions see is ASCII and has no upper-case letter |
| Slug.Slugify | src/autofmu/utils.py:13-34 | the slug holds only `-` and word characters that are not whitespace, never has `--`, never starts or ends with `-` or `_`, and in ASCII mode uses only `[a-z0-9_-]` |
| Slug.SliceKeepsDashSeparated | src/autofmu/utils.py:34 | every contiguous piece of a dash-separated string is dash-separated, so stripping keeps that shape |
| Slug.StripKeepsDashSeparated | src/autofmu/utils.py:34 | stripping `-_` from collapsed text leaves it dash-separated |
| Slug.AsciiSlugAlphabet | src/autofmu/utils.py:28-34 | on lowered ASCII text the pipeline yields only `[a-z0-9_-]` |
| Slug.CollapseFixesSingleDashes | src/autofmu/utils.py:34 | text whose only separators are single `-` is left alone by the collapse |
| Slug.StripFixesCleanEnds | src/autofmu/utils.py:34 | text without `-` or `_` at its ends is left alone by `strip("-_")` |
| Slug.AsciiSlugifyOfAscii | src/autofmu/utils.py:28-34 | on ASCII input, ASCII-mode `slugify` is the regular-expression pipeline on the lowered input |
| Slug.LowerFixesSlug | src/autofmu/utils.py:33 | lowering a slug changes nothing |
| Slug.KeepFixesSlug | src/autofmu/utils.py:33 | the first substitution leaves a slug alone |
| Slug.SeparatorsOfSlug | src/autofmu/utils.py:34 | the only separator in a slug is a single `-` |
| Slug.PipelineFixesSlug | src/autofmu/utils.py:33-34 | the lower / substitute / collapse / strip pipeline maps every slug to itself |
| Slug.SlugifyFixesSlug | src/autofmu/utils.py:13-34 | ASCII-mode `slugify` returns every slug unchanged |
| Slug.SlugifyIsSlug | src/autofmu/utils.py:13-34 | ASCII-mode `slugify` always returns a slug, for any Unicode tables |
| Slug.SlugFixedPoint | src/autofmu/utils.py:13-34 | `slugify(s) == s` exactly when `s` is a slug, both directions |
| Slug.SlugifyIdempotent | src/autofmu/utils.py:13-34 | applying ASCII-mode `slugify` twice gives the same as applying it once |
| SlugExamples.SlugTestRow9 | tests/test_utils.py:9 | `"Hello, World!"` becomes `"hello-world"` |
| SlugExamples.SlugTestRow10 | tests/test_utils.py:10 | `"spam & eggs"` becomes `"spam-eggs"` |
| SlugExamples.SlugTestRow11 | tests/test_utils.py:11 | `" multiple---dash and  space "` becomes `"multiple-dash-and-space"` |
| SlugExamples.SlugTestRow12 | tests/test_utils.py:12 | tabs and newlines around the value are dropped: `"whitespace-in-value"` |
| SlugExamples.SlugTestRow13 | tests/test_utils.py:13 | `"underscore_in-value"` is already a slug |
| SlugExamples.SlugTestRow14 | tests/test_utils.py:14 | leading and trailing underscores go, interior ones stay: `"strip__underscore-value"` |
| SlugExamples.SlugTestRow15 | tests/test_utils.py:15 | leading and trailing dash runs go: `"strip-dash-value"` |
| SlugExamples.SlugTestRow16 | tests/test_utils.py:16 | mixed underscore and dash ends go: `"strip-mixed-value"` |
| SlugExamples.SlugTestRow17 | tests/test_utils.py:17 | `"_ -strip-mixed-value _-"` becomes `"strip-mixed-value"` |
| SlugExamples.SlugTestRow18 | tests/test_utils.py:18 | in Unicode mode `"spam & ıçüş"` becomes `"spam-ıçüş"`, for tables that class those letters as Python does |
| SlugExamples.SlugTestRow19 | tests/test_utils.py:19 | in Unicode mode `"foo ıç bar"` becomes `"foo-ıç-bar"` |
| SlugExamples.SlugTestRow20 | tests/test_utils.py:20 | in Unicode mode leading spaces go: `"foo-ıç-bar"` |
| SlugExamples.SlugTestRow21 | tests/test_utils.py:21 | in Unicode mode `"你好"` is unchanged |
| SlugExamples.SlugTestRow22 | tests/test_utils.py:22 | in Unicode mode `"İstanbul"` becomes `"istanbul"`: lowering gives `i` and a combining dot, and the dot is not a word character |
| SlugExamples.SlugAsciiIstanbul | src/autofmu/utils.py:28-34 | in ASCII mode `"İstanbul"` also becomes `"istanbul"`: NFKD gives `I` and a combining dot, the ASCII encoding drops the dot, and lowering gives `i` |
| Decimal.DigitChar | src/autofmu/generator.py:86 | the digit character for a value below 10 is a digit with that value |
| Decimal.DecimalString | src/autofmu/generator.py:86 | `str(n)` is a non-empty digit string without a leading zero unless `n` is 0 |
| Decimal.ParseDecimal | src/autofmu/generator.py:86 | a string parses to a number exactly when it is a non-empty digit string |
| Decimal.ParseDecimalString | src/autofmu/generator.py:86 | parsing `str(n)` gives back `n` |
| Decimal.DecimalStringInjective | src/autofmu/generator.py:86 | different numbers get different `valueReference` texts, both directions |
| ModelDescription.FindChild | src/autofmu/generator.py:74-80 | `find(tag)` returns none exactly when no child has the tag, and otherwise the first child that has it |
| ModelDescription.FindChildAt | src/autofmu/generator.py:74-80 | `find` returns the child at position `i` when it is the first child with the tag |
| ModelDescription.GenerateModelDescription | src/autofmu/generator.py:18-107 | the builder, with its input loop and output loop appending to three lists, stops with lxml's `ValueError` exactly when some attribute value holds a control character other than tab, line feed or carriage return, and otherwise returns exactly the tree `Description` specifies |
| ModelDescription.DescribableIff | src/autofmu/generator.py:37-95 | the `.c` suffix and the `autofmu ` prefix never make a value unacceptable: the description can be built exactly when the model name, guid, version, time stamp, identifier and variable names hold no refused character |
| ModelDescription.VariableAt | src/autofmu/generator.py:82-95 | variable `k` is input `k` with reference `k + 1`, or output `k - len(inputs)` with reference `k + 1` |
| ModelDescription.Sections | src/autofmu/generator.py:74-80 | `ModelVariables`, `ModelStructure/Outputs` and `ModelStructure/InitialUnknowns` are found where the builder put them, holding the three lists |
| ModelDescription.RootOfDescription | src/autofmu/generator.py:37-46 | the root is `fmiModelDescription` with exactly the five attributes: version 2.0, the model name, the guid, `autofmu {version}`, the time stamp; its children are `ModelExchange`, `CoSimulation`, `LogCategories`, `ModelVariables`, `ModelStructure` in that order |
| ModelDescription.InterfacesDeclareSourceFile | src/autofmu/generator.py:49-64 | both interfaces name the model identifier and declare one source file, `{modelIdentifier}.c` |
| ModelDescription.FixedLogCategories | src/autofmu/generator.py:66-71 | four categories: `logAll`, `logError`, `logFmiCall`, `logEvent`, in that order |
| ModelDescription.OneVariablePerName | src/autofmu/generator.py:82-95 | one `ScalarVariable` per name, inputs and then outputs, each in the given order |
| ModelDescription.UnknownAt | src/autofmu/generator.py:96-105 | the `j`-th `Outputs` and `InitialUnknowns` entries name reference `len(inputs) + 1 + j` |
| ModelDescription.ReferencesCountFromOne | src/autofmu/generator.py:82-93 | `enumerate(…, 1)`, then `len(inputs) + 1`: the reference of variable `k` reads as `k + 1` |
| ModelDescription.ReferencesAreOneToN | src/autofmu/generator.py:82-93 | the references are exactly `1..N`: each lies in range, each number in range is used, and no two variables share one |
| ModelDescription.CausalityAndStart | src/autofmu/generator.py:82-95 | inputs have causality `input` and one `Real` child with start `0.0`; outputs have causality `output` and a `Real` child without attributes |
| ModelDescription.StructureMirrorsOutputs | src/autofmu/generator.py:96-105 | `Outputs` and `InitialUnknowns` hold one `Unknown` per output, in order, indexed by that output's reference; only `Outputs` carries `dependencies=""` |
| ModelDescription.UnknownsIndexOutputs | src/autofmu/generator.py:89-105 | every `Unknown` index names an output variable (counting from 1), the right one by name, and every output variable is named by one |
| Paths.NameLength | src/autofmu/generator.py:182 | the last component is the suffix after the last `/` |
| Paths.Basename | src/autofmu/generator.py:182 | `Path.name` is a suffix without `/`, preceded by `/` unless it is the whole path |
| Paths.BasenameUnique | src/autofmu/generator.py:182 | the name is the only suffix that has these properties |
| Paths.BasenameOfJoin | src/autofmu/utils.py:82 | the name of `dir/name` is `name` |
| Build.PointerBits | src/autofmu/utils.py:74 | 64 exactly when `sys.maxsize > 2 ** 32`, 32 otherwise |
| Build.PlatformDirRule | src/autofmu/utils.py:74-79 | the build directory is `build/win{arch}` on Windows and `build/{system.lower()}{arch}` elsewhere |
| Build.PlatformDirEndsInBits | src/autofmu/utils.py:74-79 | the pointer width reads back from the last two characters, `64` exactly for 64-bit hosts |
| Build.Linux64Dir | src/autofmu/utils.py:74-79 | a 64-bit Linux host uses `build/linux64` |
| Build.NonWindowsDistinct | src/autofmu/utils.py:76-79 | a system other than Windows, whose lowercased name is not `win`, never shares Windows' directory |
| Build.LibraryEntrySplits | src/autofmu/utils.py:82 | the library's archive path ends in the library's own file name |
| Packaging.ZipArchive.constructor | src/autofmu/generator.py:169 | a new archive has no entries |
| Packaging.ZipArchive.Write | src/autofmu/generator.py:174-195 | writing appends one entry with that path and content and changes nothing else |
| Packaging.HeaderEntriesAppend | src/autofmu/generator.py:180-182 | the header entries of a longer list extend those of the shorter one |
| Packaging.FirstLibrary | src/autofmu/utils.py:81 | `next(glob(…))`: none exactly when no product matches `{id}.*`; otherwise the first product that matches |
| Packaging.CompileFmu | src/autofmu/utils.py:47-82 | configure, then build, then the library lookup; only when all succeed is one library entry appended, under the platform directory; otherwise the archive is unchanged and the error names the step that failed |
| Packaging.WriteHeaders | src/autofmu/generator.py:180-182 | one entry `sources/headers/{name}` per header, in the order found, appended to the archive |
| Packaging.WriteSources | src/autofmu/generator.py:166-195 | in order: the description, which may stop with lxml's `ValueError` before anything is written, the headers, the strategy lookup that may stop with a `KeyError`, the fit that may raise, then the generated source; this is the `WriteStage` specification |
| Packaging.GenerateFmu | src/autofmu/generator.py:166-198 | a fresh archive whose entries and outcome are those of the `Fmu` specification |
| Packaging.OutcomeOrder | src/autofmu/generator.py:166-198 | errors are met in this order: a text lxml refuses, unknown strategy, a fit that raises, failed configure, failed build, no library; with none of them the call succeeds |
| Packaging.WriteStageLayout | src/autofmu/generator.py:169-195 | the `with` block writes nothing when lxml refuses a text; otherwise the description, then the headers, and then the source exactly when the strategy is known and the fit returns; the error names the step that stopped it |
| Packaging.ArchiveLayout | src/autofmu/generator.py:166-198 | the archive is the description, the headers in order, the source, the library, each with its path and content; empty when lxml refuses a text, `1 + n` entries on an unknown strategy or a failed fit, `2 + n` on a failed build, `3 + n` on success; each error occurs exactly when its step fails |
| Packaging.DescriptionUsesSlug | src/autofmu/generator.py:166-173 | the identifier is a slug; when the description is written, it names the ASCII slug of the model name as identifier and keeps the model name as given |
| Packaging.DescribesIff | src/autofmu/generator.py:166-173 | the slug identifier is never refused, so the description fails exactly when the model name, the guid, the version, the time stamp or a variable name holds a refused character |
| Packaging.LibraryNamedAfterIdentifier | src/autofmu/utils.py:81-82 | on success the last entry is `{platform dir}/{name}`, where the name starts with `{model_identifier}.` |
| Packaging.HeaderPathIsNotFixed | src/autofmu/generator.py:175-195 | a header path is never the description path, the source path or a library path |
| Packaging.HeaderPathsDistinct | src/autofmu/generator.py:180-182 | the header paths are distinct exactly when the header file names are |
| Packaging.FramedDistinct | src/autofmu/generator.py:174-195 | three different fixed paths around a list that has none of them: all are distinct exactly when the list is |
| Packaging.CompletePathsDistinct | src/autofmu/generator.py:174-195 | the paths of a complete archive are distinct exactly when the header names are |
| Packaging.ArchivePaths | src/autofmu/generator.py:174-198 | on success the entry paths are `modelDescription.xml`, the header paths, `sources/fmi2Functions.c` and the library path under `build/` |
| Packaging.CompleteLayout | src/autofmu/generator.py:174-198 | on success there are `3 + n` entries: the description path, the header paths in order, the source path, and the platform path of the first library found |
| Packaging.PathsOfLayout | src/autofmu/generator.py:174-195 | entries laid out this way have these paths |
| Packaging.UniquePathsIffDistinctHeaderNames | src/autofmu/generator.py:180-182 | on success every archive path occurs once exactly when the headers have different file names; nothing guards against a clash |
| Packaging.DeclaredPathIsNotPackaged | src/autofmu/generator.py:55 | no header path and not the source path spells `sources/{id}.c` for a slug `id` |
| Packaging.DeclaredNotAmong | src/autofmu/generator.py:55 | no entry of an archive laid out this way has the path `sources/{id}.c` |
| Packaging.ArchivePathShape | src/autofmu/generator.py:166-198 | for every outcome, the archive is empty exactly when the description fails; otherwise its paths are the description, the headers, and then possibly the source and a path under `build/` |
| Packaging.DeclaredSourceFileNotInArchive | src/autofmu/generator.py:55 | `sources/{model_identifier}.c`, the file both interfaces declare, is not in the archive, whatever the outcome |
| Fmi2Functions.GetTypesPlatform | src/autofmu/sources/fmi2Functions.c:31-34 | returns `"default"` |
| Fmi2Functions.GetVersion | src/autofmu/sources/fmi2Functions.c:36-39 | returns `"2.0"` |
| Fmi2Functions.Instantiate | src/autofmu/sources/fmi2Functions.c:49-105 | with no logger: no instance and no log. Otherwise the result is an instance exactly when no check fails; when one fails, only the first failing check is logged |
| Fmi2Functions.InstantiateSucceedsIff | src/autofmu/sources/fmi2Functions.c:57-104 | no check fails exactly when the name is non-empty, both memory callbacks are set and the GUID equals the embedded one, which is non-empty |
| Fmi2Functions.FirstFailureWins | src/autofmu/sources/fmi2Functions.c:62-102 | every failure is logged as `fmi2Error` under `error`. A missing name is reported under `?`. Each later check is reached only when the earlier ones pass, and carries its own message; the wrong-GUID message carries the given and the expected GUID |
| Fmi2Functions.Assigned | src/autofmu/sources/fmi2Functions.c:184-188 | a run of writes keeps the buffer's length |
| Fmi2Functions.LastIndexOf | src/autofmu/sources/fmi2Functions.c:184-188 | the last position where `vr` names a slot, and no later one names it; none when no position does |
| Fmi2Functions.AssignedLastWriteWins | src/autofmu/sources/fmi2Functions.c:184-188 | after the writes, each slot holds the value of the last write to it, or its old value when none names it |
| Fmi2Functions.Runtime.constructor | src/autofmu/sources/fmi2Functions.c:4-24 | a new runtime has `NINPUTS` inputs, `NOUTPUTS` outputs, `R` for the outputs and a zeroed buffer of `NVARIABLES` slots |
| Fmi2Functions.Runtime.MacrosAgree | src/autofmu/sources/fmi2Functions.c:4-24 | `NVARIABLES = NINPUTS + NOUTPUTS` is the buffer's length, and `R` has `NOUTPUTS` entries, each naming its output |
| Fmi2Functions.Runtime.Apply | src/autofmu/sources/fmi2Functions.c:11-13 | every relationship function returns `0.0` |
| Fmi2Functions.Runtime.SetReal | src/autofmu/sources/fmi2Functions.c:179-190 | returns `fmi2OK`; the buffer is the old one with `value[i]` written at `vr[i]` for `i < nvr`, in order (see `AssignedLastWriteWins`) |
| Fmi2Functions.Runtime.GetReal | src/autofmu/sources/fmi2Functions.c:141-153 | returns `fmi2OK`; `value[i]` is `R[vr[i]](VARIABLES, NINPUTS)`, which is `0.0`, for `i < nvr`; the rest of `value` and all of `VARIABLES` are left alone |
| Fmi2Functions.Runtime.SetRealByReference | src/autofmu/sources/fmi2Functions.c:179-190 | the corrected `fmi2SetReal`: a reference `r` in `1..NVARIABLES` writes slot `r - 1` |
| Fmi2Functions.Runtime.GetRealByReference | src/autofmu/sources/fmi2Functions.c:141-153 | the corrected `fmi2GetReal`: an output reference `r` in `NINPUTS + 1..NVARIABLES` reads `R[r - NINPUTS - 1]` |
| Fmi2Functions.Runtime.FreeInstance | src/autofmu/sources/fmi2Functions.c:107-109 | `fmi2FreeInstance` releases nothing: the runtime and its buffer are unchanged |
| Fmi2Functions.Runtime.CallStateless | src/autofmu/sources/fmi2Functions.c:111-332 | each of the other entry points returns `fmi2OK` and changes no state |
| Consistency.DescriptionReferencesOverrun | src/autofmu/sources/fmi2Functions.c:141-190 | the description's reference of variable `k` is `k + 1`, not `k`. The last variable's reference is `NVARIABLES`, one past the buffer, and with outputs it is also not an index of `R` |
| Consistency.TwoInputsOneOutput | src/autofmu/generator.py:82-93 | with inputs `x`, `y` and output `z`, `z`'s reference is 3, but the buffer has 3 slots and `R` has 1 entry |
| Consistency.ReferencesReachTheirSlots | src/autofmu/generator.py:82-93 | every reference in the description is in `1..NVARIABLES` and names its own variable's slot |
| Consistency.OutputReferencesReachTheirRelationship | src/autofmu/generator.py:89-93 | every output's reference lies after the inputs and selects the `R` entry generated for that same output |
| Consistency.DescriptionGuidInstantiates | src/autofmu/sources/fmi2Functions.c:4 | with a name and all callbacks, the guid read from the description passes every check of `fmi2Instantiate` |

## Left out

- Serialisation: `etree.tostring` and the zip format are not modelled. An
  entry's content is named (the tree, a copied file path, the instantiated
  template), not serialised. Attribute order is not kept.
- `generate_model_source` and Jinja are not modelled. The C file is modelled
  as the template instantiated for a guid, inputs and outputs. As written,
  the environment at src/autofmu/generator.py:128-135 sets `/**`…`**/` and
  `/*%`…`%*/` as delimiters, while the template uses `{{ }}` and `{% %}`, so
  its placeholders would be left as they are.
- The `\w` and `\s` character classes of `re` and Unicode
  normalisation are parameters, not tables.
- Names that are not valid C: the relationship function names `R_{output}`
  are not checked to be C identifiers.
- Strategies: the data frame and the regression of
  src/autofmu/strategies.py:34-39 are not modelled. Whether the fit returns
  is a parameter (`fitSucceeded`), standing for the `KeyError` of a missing
  column and the errors scikit-learn raises for data it cannot fit. The
  strategy-name lookup and its `KeyError` are modelled. The coefficients are
  not carried into the generated source.
- `cli.py`, `main.py`, the CMake file `CMakeLists.txt` and the header files
  are not part of this model. The header values for `fmi2TypesPlatform` and
  `fmi2Version` are those of the FMI 2.0 standard.
- CMake's I/O and output: configure and build are booleans, and the build
  directory's listing is a parameter. Extracting the archive into the
  temporary directory and copying `CMakeLists.txt` are not modelled.
- `inputs` and `outputs` are sequences. If they are one-shot iterators, the
  source's `len(list(inputs))` would drain them; that case is not modelled.
- The callback functions `allocateMemory` and `freeMemory` are modelled
  only by presence. The component environment
  pointer that the logger receives is not modelled.
- Fmi2Functions.Instantiate: the arguments `fmuType`,
  `fmuResourceLocation`, `visible` and `loggingOn` are not modelled. The
  code ignores them.
- `fmi2Real` is a type parameter whose values are only copied, so floating
  point is not modelled.
- Fmi2Functions.Runtime.SetReal: an out-of-range `vr[i]` is excluded by
  `requires` rather than modelled as a write past the array. The C code does
  not check the bound, so the effect is undefined behaviour.
- Fmi2Functions.Runtime.GetReal: an out-of-range `vr[i]` is excluded by
  `requires` for the same reason.
- Fmi2Functions.Runtime: `value` must not alias `VARIABLES`. An importer
  cannot reach the global buffer.
- ModelDescription.GenerateModelDescription: lxml's refusal is modelled for
  NUL and the other control characters below U+0020 except tab, line feed
  and carriage return. Other characters XML 1.0 excludes (U+FFFE, U+FFFF)
  are treated as accepted.
- Packaging.GenerateFmu: the `.h` glob is recursive (`**/*.h`), but the
  order of the files it finds is a parameter, not a directory walk.
- The identifier can be empty, when the slug of the model name is empty.
  The model then looks for `.*` files, as the code does; the resulting
  description is not checked against FMI's identifier rules.
- The description declares the source file `{model_identifier}.c`, but the
  archive stores the source as `sources/fmi2Functions.c`
  (`DeclaredSourceFileNotInArchive`). This is recorded as the code does it
  and not corrected.

## Findings

| source | as written | input that shows it | evidently intended | confidence | as-written member | corrected member |
|---|---|---|---|---|---|---|
| src/autofmu/sources/fmi2Functions.c:187 | `VARIABLES[vr[i]] = value[i]` uses the value reference as a 0-based index, while src/autofmu/generator.py:82-93 numbers references from 1 | inputs `x`, `y`, output `z`: `z` has reference 3 and `VARIABLES` has slots 0..2 (`Consistency.TwoInputsOneOutput`, `Consistency.DescriptionReferencesOverrun`) | reference `r` writes slot `r - 1` (`Consistency.ReferencesReachTheirSlots`) | high, not executed | Fmi2Functions.Runtime.SetReal | Fmi2Functions.Runtime.SetRealByReference |
| src/autofmu/sources/fmi2Functions.c:149 | `R[vr[i]]` indexes the output table with the full reference, which counts the inputs too and starts at 1 | inputs `x`, `y`, output `z`: `z` has reference 3 and `R` has the single entry 0 (`Consistency.TwoInputsOneOutput`) | output reference `r` reads `R[r - NINPUTS - 1]`, the relationship of that output (`Consistency.OutputReferencesReachTheirRelationship`) | high, not executed | Fmi2Functions.Runtime.GetReal | Fmi2Functions.Runtime.GetRealByReference |
