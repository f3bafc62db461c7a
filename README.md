# GASiC batch wrapper: a verified model of its bookkeeping core

GASiC (Genome Abundance Similarity Correction) estimates how abundant each
reference genome is in a metagenomic read sample. It simulates reads from
every reference, maps them back against all references, and uses the
resulting similarity structure to correct the raw mapping counts. This
repository wraps GASiC in a batch pipeline. The pipeline reads a names file
of references and an MG-RAST or SRA metadata table. It downloads each
metagenome's reads, builds read-mapper and read-simulator command lines,
tabulates SAM mapping results and writes one tab-separated result row per
metagenome. A separate script reformats BaseSpace run-summary tables.

This project models the deterministic logic between the external calls, in
Dafny:

- the reference registry (`NameFile`), a class whose entries are updated in place;
- the MG-RAST metadata table (`MetaTable`, `MetaFile`, `MgRastId`) and the older
  `metaFile` class of `objects.py` (`Objects`). This covers stage normalisation,
  source and column validation, accession-ID matching with the anchored
  pattern `((mgm)*\d{7}\.\d)`, the case-insensitive platform classification, and
  the stage/iteration download retry policy;
- queries over the last-run ledger (`LastRunFile`);
- error and value rows of the output writer (`Writer`);
- the tool factories and command-line builders (`ReadMapper`, `ReadSimulator`, `Tools`);
- the SAM "unmapped" flag (FLAG bit 0x4, section 1.4 of the SAM/BAM Format
  Specification) and the aggregations built on it (`Sam`, `CorrectAbundances`,
  `GasicCorrectAbundances`, `GasicCreateMatrix`, `GasicQualityCheck`). These are
  the reads × references 0/1 matrix, per-reference mapped counts, unique-read
  counts by set difference, the references × references × reads similarity
  tensor, and the coverage scan;
- the BaseSpace summary-table reformatter (`BaseSpaceSummaryFormat`).

Python semantics are written out in shared modules:

- `PyStr`: `rstrip`, `split`, `join`, `find`, `lower`, `%` formatting of one
  string argument into patterns made of `%s` and `%%` (other conversions are
  listed under "Left out"), and list indexing with negative indices.
- `PyPath`: `os.path.splitext`, `basename` and `join`.
- `Wrappers`: `Option`/`Result` and a model of a Python generator that yields
  values until its first exception.

Everything outside the process is a parameter:

- the parsed records of a SAM file, as a function from file name to records;
- a FASTQ record count;
- a pandas table reader;
- an HTTP server, as a function from URL to response;
- the `$PATH` lookup;
- file existence and file contents.

Code that works step by step is modelled as methods with loops, proved equal to
a specification function. The properties are then proved about that function:

- the registry is a class with `modifies` frames;
- the similarity matrix and the tensor are `array2`/`array3` filled row by row
  or slice by slice;
- the coverage array is incremented in place.

## Model

| member | source | states |
|---|---|---|
| NameFile.ParseLine | lib/gasicBatch/NameFile.py:23-30 | every entry has exactly the keys `refFile`, `indexFile`, `rowIndex`, and `rowIndex` is the given line number |
| NameFile.ParseLines | lib/gasicBatch/NameFile.py:20-31 | one entry per input line, in file order, entry `i` parsed with row index `i` (blank lines included) |
| NameFile.TwoColumns | lib/gasicBatch/NameFile.py:23-30 | a line `ref\tidx` followed by trailing whitespace gives `refFile = ref`, `indexFile = idx` |
| NameFile.OneColumn | lib/gasicBatch/NameFile.py:23-27 | a one-field line, including `ref\t` whose tab is removed by `rstrip`, gives `indexFile = None` |
| NameFile.ExtraColumnsIgnored | lib/gasicBatch/NameFile.py:23-30 | fields after the second are ignored |
| NameFile.NameFile.constructor | lib/gasicBatch/NameFile.py:13-14 | a new registry holds exactly the parsed entries of the given lines |
| NameFile.NameFile.ReadNameFile | lib/gasicBatch/NameFile.py:17-31 | the append loop with its line counter leaves `names` equal to the parsed entries of all lines |
| NameFile.NameFile.IterNames | lib/gasicBatch/NameFile.py:34-41 | yields exactly the stored entries in stored order |
| NameFile.NameFile.SetNamesKeypair | lib/gasicBatch/NameFile.py:44-58 | an index outside `-len..len-1` raises `IndexError` and changes nothing; otherwise key `k` of entry `i` (negative `i` counted from the end) becomes `v`, 1 is returned, and every other entry and every other key is unchanged |
| NameFile.NameFile.GetNamesRow | lib/gasicBatch/NameFile.py:61-62 | succeeds iff the index is valid in Python's sense, returning that entry; otherwise `IndexError` |
| NameFile.NameFile.Len | lib/gasicBatch/NameFile.py:64-65 | equals the number of stored entries |
| MetaTable.StringifyStages | lib/gasicBatch/MetaFile.py:33-34 | stages become the string form of each item in order; a string is iterated character by character; a non-iterable raises `TypeError` |
| MetaTable.StageNumberReadsBack | lib/gasicBatch/MetaFile.py:34 | the string of a stage number is all digits and reads back as that number |
| MetaTable.DefaultStagesStrings | lib/gasicBatch/MetaFile.py:72 | the default stages `[150, 100]` become `["150", "100"]` |
| MetaTable.LoadTable | lib/gasicBatch/MetaFile.py:43-50 | `fileName` takes precedence over `fileObject`; with neither, `IOError('Provide either fileName or fileObject')` |
| MetaTable.RequireColumn | lib/gasicBatch/MetaFile.py:79-84 | succeeds, returning the table unchanged, iff the column is present; otherwise `IOError` with the given message |
| MetaFile.NormaliseStages | lib/gasicBatch/MetaFile.py:33-36 | a non-iterable `stages` is stored as `None`, anything else as its stringified items |
| MetaFile.NewMetaFileMgRast | lib/gasicBatch/MetaFile.py:71-84 | succeeds iff a source is given and the loaded table has an `id` column; the missing-source and missing-column errors are the source's `IOError`s |
| MetaFile.Classify | lib/gasicBatch/MetaFile.py:155-163 | on the lower-cased method: `454` or `pyro` gives `'454'`; otherwise `illumina` gives `'illumina'`; otherwise `sanger` gives `'sanger'`; otherwise `None`, each as an if-and-only-if |
| MetaFile.GetPlatform | lib/gasicBatch/MetaFile.py:148-163 | a row without `seq_method` raises the source's `KeyError`; otherwise the platform is the classification of that column |
| MetaFile.MissingCharNotContained | lib/gasicBatch/MetaFile.py:156-161 | a text lacking one character of a pattern does not contain the pattern |
| MetaFile.LowerIdempotent | lib/gasicBatch/MetaFile.py:156 | lower-casing twice equals lower-casing once |
| MetaFile.ClassifyIgnoresCase | lib/gasicBatch/MetaFile.py:156-161 | classification is unchanged by lower-casing its input (`re.I`) |
| MetaFile.LowerConcat | lib/gasicBatch/MetaFile.py:156 | lower-casing distributes over concatenation |
| MetaFile.ClassifyMentions454 | lib/gasicBatch/MetaFile.py:156-157 | any method text containing `454` is classified `'454'`, whatever else it mentions |
| MetaFile.ClassifyMentionsPyro | lib/gasicBatch/MetaFile.py:156-157 | any method text containing `pyro` in any letter case is classified `'454'` |
| MetaFile.ClassifyUnknown | lib/gasicBatch/MetaFile.py:155-163 | a method text that cannot contain any of the four keywords is classified `None` |
| MetaFile.RowStep | lib/gasicBatch/MetaFile.py:97-107 | one row succeeds iff its id matches the accession pattern and it has a `seq_method` column; a bad id raises the `ValueError`, a missing column the `KeyError` |
| MetaFile.RowSteps | lib/gasicBatch/MetaFile.py:96-107 | one step per table row, in table order |
| MetaFile.IterByRowComplete | lib/gasicBatch/MetaFile.py:96-110 | when every row is valid, the generator yields one row object per table row and does not raise |
| MetaFile.DlStageAsWritten | lib/gasicBatch/MetaFile.py:192-242 | as written: past `lastIter` nothing is requested and 0 is returned; a file is reported iff iteration `iteration` is within `lastIter`, answers 200, and the stage file left on disk (by it or by a retry) is non-empty; the reported name is the stage's file; the files map only grows |
| MetaFile.DlStage | lib/gasicBatch/MetaFile.py:192-242 | the requests are the stage URLs for iterations `iteration, iteration+1, …`, never past `lastIter`; a result is always the stage's output file, present with non-zero size |
| MetaFile.DlStageDelivers | lib/gasicBatch/MetaFile.py:207-242 | a stage yields a file iff some iteration up to `lastIter` answers 200 with content that decompresses to a non-empty file, every earlier iteration having answered 200 with a corrupt body |
| MetaFile.StageUrlsDistinct | lib/gasicBatch/MetaFile.py:212-213 | different iterations of one stage request different URLs |
| MetaFile.DlStageRequestsDistinct | lib/gasicBatch/MetaFile.py:212-218 | no URL is requested twice within one stage |
| MetaFile.DlStageAsWrittenReportsPartialFile | lib/gasicBatch/MetaFile.py:229-242 | a corrupt 200 answer followed by a 404 is reported as success as written, and as failure by the corrected stage |
| MetaFile.DownloadFrom | lib/gasicBatch/MetaFile.py:182-189 | a result is the output file of one of the remaining stages |
| MetaFile.DownloadFromAsWritten | lib/gasicBatch/MetaFile.py:182-189 | as written: the stages are tried in order with the as-written stage download, and a reported file is that of one of the stages tried |
| MetaFile.DlStageAsWrittenIgnoresFiles | lib/gasicBatch/MetaFile.py:192-242 | as written, a stage's result, its requests and the size of the file it leaves after a 200 answer do not depend on the files already on disk |
| MetaFile.DownloadAsWrittenFirstReporting | lib/gasicBatch/MetaFile.py:182-189 | as written, the download succeeds iff some stage reports its file (first answer 200, non-empty file left), and then the file is that of the first such stage in order |
| MetaFile.DownloadAsWrittenReportsPartialFile | lib/gasicBatch/MetaFile.py:182-242 | for one stage answering a corrupt 200 and then 404, no iteration delivers, yet the as-written download reports the partial file; the corrected download reports none |
| MetaFile.DownloadFirstDelivering | lib/gasicBatch/MetaFile.py:182-189 | with the corrected stage download (see Findings): stages are tried in order, the download succeeds iff some stage delivers, and then the file is that of the first delivering stage |
| MetaFile.SeqMin | lib/gasicBatch/MetaFile.py:267 | the minimum is an element and no element is smaller |
| MetaFile.SeqMax | lib/gasicBatch/MetaFile.py:270 | the maximum is an element and no element is larger |
| MetaFile.DownloadStep | lib/gasicBatch/MetaFile.py:182-189 | trying stage `i` either returns at once with its file or continues with stage `i+1`, carrying the requests and files so far |
| MetaFile.TryStages | lib/gasicBatch/MetaFile.py:182-189 | the loop with early return yields exactly the outcome, requests and files of the stage-by-stage download specification |
| MetaFile.MetaFileRow.constructor | lib/gasicBatch/MetaFile.py:117-133 | the row object holds the row's id, row, index, stages and platform, with no read file and no statistics |
| MetaFile.MetaFileRow.Download | lib/gasicBatch/MetaFile.py:166-189 | with the corrected stage download (see Findings): `ID` of `None` raises `TypeError` with nothing requested; otherwise returns 1 and stores the file of the first delivering stage, or returns 0 and leaves `readFile` unchanged |
| MetaFile.MetaFileRow.GetReadStats | lib/gasicBatch/MetaFile.py:245-273 | with no read file at all, `AttributeError`; an empty read file raises `min()`'s `ValueError` and changes nothing; otherwise returns 1 and stores the minimum and maximum read length, which bound every read length and both occur |
| MetaFile.NewRow | lib/gasicBatch/MetaFile.py:117-133 | a row object is created exactly when the row step succeeds, and holds that step's data |
| MetaFile.DataOf | lib/gasicBatch/MetaFile.py:107-110 | one data record per yielded row object |
| MetaFile.DataOfYields | lib/gasicBatch/MetaFile.py:107-110 | yielding one more row object advances the generator by one step |
| MetaFile.IterByRow | lib/gasicBatch/MetaFile.py:87-110 | the row objects yielded, and the exception that stops the loop, are exactly those of the generator specification |
| MgRastId.MatchId | lib/gasicBatch/MetaFile.py:94-104 | a match is a prefix of the id, at least 9 characters long |
| MgRastId.MgmCountMaximal | lib/gasicBatch/MetaFile.py:94 | the greedy `(mgm)*` prefix is maximal |
| MgRastId.OnlyGreedySplit | lib/gasicBatch/MetaFile.py:94 | the only `mgm` repetition count after which seven digits, a dot and a digit follow is the greedy one, so no backtracking is needed |
| MgRastId.MgmAt | lib/gasicBatch/MetaFile.py:94 | within an `(mgm)*` prefix every third position starts `mgm` |
| MgRastId.MatchIdSpec | lib/gasicBatch/MetaFile.py:94-104 | the id matches iff it starts with some `(mgm)^j` followed by `\d{7}\.\d`, and the match is then exactly that prefix |
| MgRastId.MatchIgnoresSuffix | lib/gasicBatch/objects.py:79-83 | text after a complete accession does not change the match |
| MgRastId.MatchIdIdempotent | lib/gasicBatch/objects.py:79-83 | a matched accession matches itself |
| Objects.NewObjMetaFile | lib/gasicBatch/objects.py:15-64 | errors in source order: non-iterable stages (`TypeError`), then a `seqDB` other than MGRAST/SRA, then no source, then the missing `id` (MGRAST) or `ftp` (SRA) column, each the source's `IOError`; on success stages are stringified and the table is read from `fileName` in preference to `fileObject` |
| Objects.SeqDBCheckedBeforeLoad | lib/gasicBatch/objects.py:33-34 | with an unknown `seqDB` the result does not depend on the file arguments or the reader, so nothing is loaded |
| Objects.IdStep | lib/gasicBatch/objects.py:76-83 | a row yields an id iff it has an `id` that matches; the yield is a prefix of it; a missing column is `KeyError`, a bad id the `ValueError` |
| Objects.IdSteps | lib/gasicBatch/objects.py:75-86 | one step per row, in table order |
| Objects.YieldedIsAccession | lib/gasicBatch/objects.py:79-86 | the k-th yielded value is a prefix of row k's id and is itself a complete accession |
| Objects.TrailingTextDropped | lib/gasicBatch/objects.py:83 | `group(1)` drops everything after `\d{7}\.\d` |
| Objects.IterByRow | lib/gasicBatch/objects.py:67-86 | the ids yielded, and the exception that stops the loop, are exactly those of the generator specification |
| Objects.DownloadUrlsDistinct | lib/gasicBatch/objects.py:99-101 | different stages give different URLs |
| Objects.Download | lib/gasicBatch/objects.py:89-105 | one request per stage in stage order to `base + ID + '?stage=' + stage`; a `None` ID with at least one stage raises `TypeError` before any request |
| LastRunFile.GetMgIDs | lib/gasicBatch/lastRunFile.py:20-22 | the first column in row order, one id per row |
| LastRunFile.MgIDIterIsGetMgIDs | lib/gasicBatch/lastRunFile.py:15-22 | the generator yields the same sequence as `get_mgIDs` |
| LastRunFile.IterColumn | lib/gasicBatch/lastRunFile.py:15-18 | the generator yields the first cell of every row, in order |
| LastRunFile.MgIDExists | lib/gasicBatch/lastRunFile.py:24-33 | the mask is as long as the table and entry `r` is true iff row `r`'s id is in `mgIDs` |
| LastRunFile.SelectByIds | lib/gasicBatch/lastRunFile.py:45 | selecting with the membership mask equals filtering rows by id |
| LastRunFile.MgEntriesFilters | lib/gasicBatch/lastRunFile.py:36-45 | `mgEntries` is the order-preserving filter of rows whose id is listed |
| LastRunFile.RowsWithIdsCounts | lib/gasicBatch/lastRunFile.py:36-45 | each row occurs in the result as often as in the table if its id is listed, and not at all otherwise (duplicates kept) |
| LastRunFile.RowsWithIdsListed | lib/gasicBatch/lastRunFile.py:36-45 | every returned row's id is in `mgIDs` |
| LastRunFile.RowsWithNoIds | lib/gasicBatch/lastRunFile.py:36-45 | filtering by no ids gives no rows |
| LastRunFile.RowsWithAllIds | lib/gasicBatch/lastRunFile.py:36-45 | filtering by a list that holds every row's id returns the table |
| LastRunFile.MgEntriesExtremes | lib/gasicBatch/lastRunFile.py:20-45 | `mgEntries([])` is empty and `mgEntries(get_mgIDs())` is the whole table |
| Writer.NewOutputWriter | lib/gasicBatch/Writer.py:9-18 | stores the id and separator, and a column count two less than the argument |
| Writer.ErrorFieldsShape | lib/gasicBatch/Writer.py:39-72 | an error row is `[mgID, 'ERROR:' + reason]` then `'NA'` fields, `nCol` fields in all (2 when `nCol < 2`, since `['NA'] * n` is empty for negative `n`) |
| Writer.ErrorRowSplits | lib/gasicBatch/Writer.py:43-44 | when no field contains the one-character separator, splitting the row on it gives back the field list |
| Writer.WriteValues | lib/gasicBatch/Writer.py:20-28 | succeeds iff all eight keys are present, giving them tab-joined in the order mgID, ref, total, mapped, corr, error, pval, mg_platform; otherwise a `KeyError` for the first missing key in that order |
| Writer.FirstMissing | lib/gasicBatch/Writer.py:28 | scanning the eight keys from `i` on (all before `i` present) reports a `KeyError` for the first missing key in template order, or the joined line when none is missing |
| Writer.NoReadFile | lib/gasicBatch/Writer.py:39-44 | the row is the `no_metagenome_read_file` error row and the message names the metagenome |
| Writer.PlatformUserSkip | lib/gasicBatch/Writer.py:46-51 | the row is the `undesired_platform` error row and the message names the platform |
| Writer.PlatformUnknown | lib/gasicBatch/Writer.py:53-58 | the row is the `undetermined_platform` error row and the message names the platform |
| Writer.SimReadError | lib/gasicBatch/Writer.py:60-65 | the row is the `read_simulation_error` error row and the message names the metagenome |
| Writer.ReadFileFormatConversionError | lib/gasicBatch/Writer.py:67-72 | the row is the `read_file_format_conversion_error` error row and the message names the metagenome |
| Writer.PlatformNotInRow | lib/gasicBatch/Writer.py:46-58 | the platform-skip rows do not depend on the platform value |
| Writer.ReasonsDistinct | lib/gasicBatch/Writer.py:39-72 | the reason fields of the five error rows differ pairwise (all ten pairs) |
| ReadMapper.ExeExists | lib/gasicBatch/ReadMapper.py:28-33 | returns 1 iff the executable is on the path, otherwise the source's `IOError` |
| ReadMapper.CheckAll | lib/gasicBatch/ReadMapper.py:40 | succeeds iff every executable is on the path; otherwise the error names the first missing one |
| ReadMapper.NewMapperBowtie2 | lib/gasicBatch/ReadMapper.py:38-42 | construction succeeds iff all executables are on the path, and then stores them |
| ReadMapper.GetMapper | lib/gasicBatch/ReadMapper.py:10-25 | only `'bowtie2'` is accepted (then subject to the path check); anything else raises `TypeError` |
| ReadMapper.GetMapperCaseSensitive | lib/gasicBatch/ReadMapper.py:20-25 | `'Bowtie2'` is rejected; `'bowtie2'` succeeds iff both bowtie2 executables are on the path |
| ReadMapper.SamOutFileSwapsExtension | lib/gasicBatch/ReadMapper.py:54-56 | with no `outFile`, the SAM file has the index file's root and the extension `.sam` |
| ReadMapper.KwargOptions | lib/gasicBatch/ReadMapper.py:59 | one `-k v` option per keyword argument, in order |
| ReadMapper.KwargWords | lib/gasicBatch/ReadMapper.py:59 | two words per keyword argument |
| ReadMapper.MapperParamsEmpty | lib/gasicBatch/ReadMapper.py:59-62 | params are empty iff there are no keyword arguments and the file type is not fasta; for fasta they end in ` -f` |
| ReadMapper.MapperParamsWords | lib/gasicBatch/ReadMapper.py:59-62 | the words of params are the keyword words (a single empty word when there are no keyword arguments) followed by `-f` exactly when the file type is fasta, ignoring case |
| ReadMapper.FlagWords | lib/gasicBatch/ReadMapper.py:61-62 | appending ` -f` adds exactly the word `-f` |
| ReadMapper.OptionsWords | lib/gasicBatch/ReadMapper.py:59 | the space-joined options split back into the keyword words |
| ReadMapper.OptionWords | lib/gasicBatch/ReadMapper.py:59 | one option `-k v` splits into `-k` and `v` |
| ReadMapper.Bowtie2CommandWords | lib/gasicBatch/ReadMapper.py:65-66 | the command's words are `bowtie2 -U reads -x index -S samfile --local` followed by the params' words |
| ReadMapper.RunMapper | lib/gasicBatch/ReadMapper.py:45-69 | the returned file is the given `outFile`, or the derived `.sam` name, and the command is the bowtie2 template over it |
| ReadMapper.MakeIndex | lib/gasicBatch/ReadMapper.py:72-93 | without `outFile` the undefined `indexFile` raises `NameError`; otherwise the given `outFile` is returned |
| ReadMapper.MakeIndexWords | lib/gasicBatch/ReadMapper.py:86-90 | the command is `bowtie2-build subject outFile` whatever keyword arguments are given |
| ReadSimulator.GetSimulatorAsWritten | lib/gasicBatch/ReadSimulator.py:11-27 | as written: only `griner` succeeds; `mason` reaches the unimported `find_executable` and raises `NameError`; other names raise `TypeError` with the lower-cased name |
| ReadSimulator.MasonUnreachableAsWritten | lib/gasicBatch/ReadSimulator.py:1-27 | as written, asking for `mason` in any letter case always fails with `NameError` |
| ReadSimulator.ExeExists | lib/gasicBatch/ReadSimulator.py:22-27 | returns 1 iff the executable is on the path, otherwise the source's `IOError` |
| ReadSimulator.GetSimulator | lib/gasicBatch/ReadSimulator.py:11-46 | the name is lower-cased; `mason` succeeds iff `mason` is on the path, `griner` always succeeds, and any other name raises the `TypeError` |
| ReadSimulator.GetSimulatorNames | lib/gasicBatch/ReadSimulator.py:14-20 | `MaSoN` is the same as `mason`, the correctly spelt `grinder` is rejected, `Griner` is accepted |
| ReadSimulator.RunSimulator | lib/gasicBatch/ReadSimulator.py:49-74 | the output file is derived as in the source, the log file is output file + `.log`, and the command is the mason template over them |
| ReadSimulator.SimFilesPlacement | lib/gasicBatch/ReadSimulator.py:62-67 | with `outDir` the output keeps the base name of the derived or given file; the log always sits next to the output |
| ReadSimulator.SimDefaultExtension | lib/gasicBatch/ReadSimulator.py:62-64 | with no `outFile` and no `outDir` the output is the reference's root + `_simReads` with extension `.fq` |
| ReadSimulator.MasonCommandWords | lib/gasicBatch/ReadSimulator.py:70-71 | the command's words are `mason`, the params' words, `-o outFile refFile > logFile` |
| Tools.ReadNames | lib/gasicBatch/core/tools.py:33-37 | one name per line in order, each a prefix of its line |
| Tools.NamesHaveNoLineEnd | lib/gasicBatch/core/tools.py:35 | no name ends in `\n` or `\r`, and only such characters were removed |
| Tools.ReadNameKeepsText | lib/gasicBatch/core/tools.py:35 | a line that is a name (not ending in a line-end character) followed by line-end characters gives exactly that name, other whitespace kept |
| Tools.MapperRegistry | lib/gasicBatch/core/tools.py:83-86 | the mapper keys are exactly `bowtie`, `bowtie2`, `bwa`, `bwasw`, each bound to its caller |
| Tools.SimulatorRegistry | lib/gasicBatch/core/tools.py:136-137 | the simulator keys are exactly `mason_illumina`, `dwgsim` |
| Tools.RunMapper | lib/gasicBatch/core/tools.py:55-80 | every mapper caller returns 1; bwa issues two commands, the others one |
| Tools.MapperCommandWords | lib/gasicBatch/core/tools.py:55-80 | the first command's words are the tool's fixed words around `param`, with bowtie2's `-S samfile` before the parameters |
| Tools.BwaFirstCommandIgnoresOut | lib/gasicBatch/core/tools.py:68 | bwa's first command does not depend on the output file (it writes `/tmp/res.sai`) |
| Tools.RunSimulator | lib/gasicBatch/core/tools.py:117-133 | every simulator caller returns 1 after two commands |
| Tools.SimulatorCommandWords | lib/gasicBatch/core/tools.py:117-133 | the first command's words are the fixed mason or dwgsim arguments with the output and reference placed as in the templates |
| Sam.UnmappedBit | lib/gasicBatch/CorrectAbundances.py:51 | a record is unmapped iff bit 0x4 of its FLAG is set |
| Sam.Indicators | lib/gasicBatch/CorrectAbundances.py:51 | one 0/1 entry per record, 1 iff the record is mapped |
| Sam.CountMapped | lib/gasicBatch/CorrectAbundances.py:52 | the number of mapped records is at most the number of records |
| Sam.SumIndicators | lib/gasicBatch/CorrectAbundances.py:51-52 | the sum of the indicator row is the number of mapped records |
| Sam.CountMappedExtremes | lib/gasicBatch/CorrectAbundances.py:51-52 | the count equals the record count iff all are mapped, and is 0 iff none is |
| Sam.MappedNamesMember | lib/gasicBatch/CorrectAbundances.py:79-82 | a name is collected iff some mapped record carries it |
| CorrectAbundances.Broadcast | lib/gasicBatch/CorrectAbundances.py:51 | numpy row assignment succeeds iff the row has `total` entries or exactly 1 (broadcast); otherwise the broadcast `ValueError` |
| CorrectAbundances.SamRows | lib/gasicBatch/CorrectAbundances.py:45-51 | one row step per SAM file, in order |
| CorrectAbundances.RowSums | lib/gasicBatch/CorrectAbundances.py:52 | one sum per row |
| CorrectAbundances.MappingShape | lib/gasicBatch/CorrectAbundances.py:34-42 | `total` is the record count of the first file; `mapped` has one row of length `total` per file and `num_reads` one entry per file |
| CorrectAbundances.MappedEntries | lib/gasicBatch/CorrectAbundances.py:45-52 | for a file with `total` records, `mapped[i][j] = 1` iff record `j` is mapped, and `num_reads[i]` is its mapped count |
| CorrectAbundances.SumIndicatorRow | lib/gasicBatch/CorrectAbundances.py:52 | the sum of a 0/1 row lies between 0 and its length |
| CorrectAbundances.NumReadsBounded | lib/gasicBatch/CorrectAbundances.py:42-52 | `0 <= num_reads[i] <= total` |
| CorrectAbundances.MappingFails | lib/gasicBatch/CorrectAbundances.py:39-51 | the table fails iff some file has neither `total` records nor one; the error is that of the first such file |
| CorrectAbundances.Rows | lib/gasicBatch/CorrectAbundances.py:39 | the rows of the matrix have its dimensions |
| CorrectAbundances.FillRow | lib/gasicBatch/CorrectAbundances.py:51-52 | row `i` of `mapped` becomes the given row and `num_reads[i]` its sum; nothing else changes |
| CorrectAbundances.UpdatedPrefix | lib/gasicBatch/CorrectAbundances.py:45-52 | after updating entry `i`, the prefix up to `i` is the old prefix plus the new entry |
| CorrectAbundances.SimilarityCorrection | lib/gasicBatch/CorrectAbundances.py:14-52 | the fill loop fails with the specification's error, or returns fresh arrays whose contents are the specified `total`, `mapped` and `num_reads` |
| CorrectAbundances.UnionExceptMember | lib/gasicBatch/CorrectAbundances.py:86-89 | `others` holds a name iff some other species' set below the bound holds it |
| CorrectAbundances.UniqueSets | lib/gasicBatch/CorrectAbundances.py:84-90 | one unique set per species |
| CorrectAbundances.UniqueMember | lib/gasicBatch/CorrectAbundances.py:84-90 | a name is unique to species `n` iff it is mapped in `n` and in no other species |
| CorrectAbundances.UniqueDisjoint | lib/gasicBatch/CorrectAbundances.py:84-90 | unique sets of different species are disjoint, and each lies within its species' mapped set |
| CorrectAbundances.Sizes | lib/gasicBatch/CorrectAbundances.py:92 | one size per set |
| CorrectAbundances.FormatSteps | lib/gasicBatch/CorrectAbundances.py:78 | one formatted SAM name per species |
| CorrectAbundances.CollectMappedNames | lib/gasicBatch/CorrectAbundances.py:79-82 | the set built by `add` over the records is the set of mapped read names |
| CorrectAbundances.Others | lib/gasicBatch/CorrectAbundances.py:86-89 | the `|=` loop yields the union of all other species' sets |
| CorrectAbundances.Unique | lib/gasicBatch/CorrectAbundances.py:64-92 | the nested loops return exactly the specified unique counts, or the formatting error of the first bad name |
| CorrectAbundances.CorrAbundRes.constructor | lib/gasicBatch/CorrectAbundances.py:98-103 | stores its five arguments unchanged |
| GasicCorrectAbundances.PatternRows | lib/gasic-r16/gasic_correct_abundances.py:70-76 | one row step per name, from the file `sam_pattern % name` |
| GasicCorrectAbundances.SamFileNames | lib/gasic-r16/gasic_correct_abundances.py:73 | one SAM file name per genome name |
| GasicCorrectAbundances.PatternAgreesWithFiles | lib/gasic-r16/gasic_correct_abundances.py:59-77 | when every name formats, the table equals the batch version's table over the formatted file names, so its shape, entry and bound lemmas carry over |
| GasicCorrectAbundances.PatternWithoutPlaceholder | lib/gasic-r16/gasic_correct_abundances.py:59 | a pattern with no `%` fails (`not all arguments converted`) |
| GasicCorrectAbundances.SimilarityCorrection | lib/gasic-r16/gasic_correct_abundances.py:39-77 | the fill loop fails with the specification's error, or returns fresh arrays holding the specified `total`, `mapped` and `num_reads` |
| GasicCorrectAbundances.DisjointSizesSum | lib/gasic-r16/gasic_correct_abundances.py:113 | for pairwise disjoint sets, the sum of the first `k` sizes is the size of their union |
| GasicCorrectAbundances.UniquePairwiseDisjoint | lib/gasic-r16/gasic_correct_abundances.py:105-111 | the unique sets are pairwise disjoint |
| GasicCorrectAbundances.UniqueWithinUnion | lib/gasic-r16/gasic_correct_abundances.py:105-111 | the union of the unique sets lies within the union of the mapped sets |
| GasicCorrectAbundances.UniqueSumBound | lib/gasic-r16/gasic_correct_abundances.py:105-113 | the sum of the unique counts is at most the size of the union of the mapped sets |
| GasicCorrectAbundances.WriteResults | lib/gasic-r16/gasic_correct_abundances.py:157-163 | one header line, then one result line per name in `names` order |
| GasicCorrectAbundances.ResultLineFields | lib/gasic-r16/gasic_correct_abundances.py:161-162 | a result line splits on tabs into name, mapped count, estimate, error and p-value |
| GasicCreateMatrix.MapperOf | lib/gasic-r16/gasic_create_matrix.py:58-59 | a mapper is found only for a name in the `run_mapper` registry |
| GasicCreateMatrix.SimulatorOf | lib/gasic-r16/gasic_create_matrix.py:60-61 | a simulator is found only for a name in the `run_simulator` registry |
| GasicCreateMatrix.Formatted | lib/gasic-r16/gasic_create_matrix.py:69-70 | one file name per genome name |
| GasicCreateMatrix.FormattedNames | lib/gasic-r16/gasic_create_matrix.py:69-70 | the list succeeds iff every `pattern % nm` does, entry `i` being `pattern % names[i]`; otherwise the error of the first failing name |
| GasicCreateMatrix.SamFilesDiffer | lib/gasic-r16/gasic_create_matrix.py:85 | for distinct dash-free names, `SAM(i, j)` and `SAM(j, i)` are different files |
| GasicCreateMatrix.DashedNamesShareSamFile | lib/gasic-r16/gasic_create_matrix.py:85 | names containing `-` can make two pairs share one SAM file |
| GasicCreateMatrix.SimCalls | lib/gasic-r16/gasic_create_matrix.py:74-75 | one simulator call per genome, in `names` order, from `ref_files[i]` to `sim_files[i]` |
| GasicCreateMatrix.MapRow | lib/gasic-r16/gasic_create_matrix.py:84-86 | one mapper call per reference `j` for reads `i` |
| GasicCreateMatrix.FlattenAt | lib/gasic-r16/gasic_create_matrix.py:83-86 | position `i*m + j` of the flattened rows is row `i`, column `j` |
| GasicCreateMatrix.FlattenLength | lib/gasic-r16/gasic_create_matrix.py:83-86 | `n` rows of `m` calls flatten to `n*m` calls |
| GasicCreateMatrix.MapRows | lib/gasic-r16/gasic_create_matrix.py:83-86 | one row of calls per read set `i` |
| GasicCreateMatrix.MapCallOrder | lib/gasic-r16/gasic_create_matrix.py:83-86 | the mapper runs `n²` times in row-major order; call `i*n + j` maps reads `i` to index `j`, writing `temp_dir/names[i]-names[j].sam` |
| GasicCreateMatrix.PairRow | lib/gasic-r16/gasic_create_matrix.py:91-95 | one slice step per reference `j` |
| GasicCreateMatrix.TensorSteps | lib/gasic-r16/gasic_create_matrix.py:90-95 | one row step per read set `i` |
| GasicCreateMatrix.TensorCell | lib/gasic-r16/gasic_create_matrix.py:89-95 | the tensor is `n × n`; slice `[i][j]` is the indicator row of `SAM(i, j)`, of length `num_reads` |
| GasicCreateMatrix.TensorEntry | lib/gasic-r16/gasic_create_matrix.py:95 | `[i][j][k] = 1` iff record `k` of `SAM(i, j)` is mapped |
| GasicCreateMatrix.NotSymmetric | lib/gasic-r16/gasic_create_matrix.py:90-95 | when `SAM(i, j)` and `SAM(j, i)` disagree on record `k`, so do `[i][j][k]` and `[j][i][k]` |
| GasicCreateMatrix.TensorFailsOnShortFile | lib/gasic-r16/gasic_create_matrix.py:95 | a SAM file with neither `num_reads` records nor one makes the fill fail |
| GasicCreateMatrix.SimFiles | lib/gasic-r16/gasic_create_matrix.py:71 | `sim_files[i] = temp_dir + '/' + names[i] + '.fastq'` |
| GasicCreateMatrix.UnknownToolDoesNothing | lib/gasic-r16/gasic_create_matrix.py:58-63 | an unknown mapper or simulator raises before any directory is made or tool is run |
| GasicCreateMatrix.SimulationBeforeMapping | lib/gasic-r16/gasic_create_matrix.py:74-86 | the `n` simulator calls come first, in order, followed only by `n²` mapper calls |
| GasicCreateMatrix.DirectoryFirst | lib/gasic-r16/gasic_create_matrix.py:62-63 | the temporary directory is made first, once, only when it does not exist |
| GasicCreateMatrix.FlattenAligns | lib/gasic-r16/gasic_create_matrix.py:83-86 | flattening rows of mapper calls gives only mapper calls |
| GasicCreateMatrix.ReadCountFromFirstFile | lib/gasic-r16/gasic_create_matrix.py:80-95 | the tensor's depth is the read count of the first simulated file only |
| GasicCreateMatrix.FillSlice | lib/gasic-r16/gasic_create_matrix.py:95 | slice `[i][j]` becomes the given row; every other entry is unchanged |
| GasicCreateMatrix.RunMappers | lib/gasic-r16/gasic_create_matrix.py:83-86 | the nested loops issue exactly the specified mapper calls, in order |
| GasicCreateMatrix.FillRowOfSlices | lib/gasic-r16/gasic_create_matrix.py:91-95 | the inner loop fails iff row `i`'s specification does, with its error; otherwise it writes row `i` and keeps earlier rows |
| GasicCreateMatrix.FillTensor | lib/gasic-r16/gasic_create_matrix.py:89-95 | the nested fill loop ends with the specified error, or with the array holding exactly the specified tensor |
| GasicCreateMatrix.RunSimulators | lib/gasic-r16/gasic_create_matrix.py:74-75 | the loop issues exactly the specified simulator calls |
| GasicCreateMatrix.SimilarityMatrixRaw | lib/gasic-r16/gasic_create_matrix.py:41-97 | the actions performed and the tensor or error returned are those of the specification |
| GasicCreateMatrix.RunRegistered | lib/gasic-r16/gasic_create_matrix.py:62-97 | with both tools registered, the actions and the result are those of the specification |
| GasicCreateMatrix.RunNamed | lib/gasic-r16/gasic_create_matrix.py:71-97 | with the file names formatted, the actions and the result are those of the specification |
| GasicQualityCheck.DatasetNameOfSamFile | lib/gasic-r16/gasic_quality_check.py:77 | the dataset name of `dir/root.sam` is `root` |
| GasicQualityCheck.CumSum | lib/gasic-r16/gasic_quality_check.py:80 | entry `k` is `l0 + … + lk` |
| GasicQualityCheck.StartPosAsWritten | lib/gasic-r16/gasic_quality_check.py:80 | as written (`cumsum(lengths) - lengths[0]`): fails only for a file with no references |
| GasicQualityCheck.StartPos | lib/gasic-r16/gasic_quality_check.py:79-80 | the corrected offsets: one per reference, failing only when there is none |
| GasicQualityCheck.GenomeLength | lib/gasic-r16/gasic_quality_check.py:79 | the coverage array has length `sum(lengths)` |
| GasicQualityCheck.SumNonNegative | lib/gasic-r16/gasic_quality_check.py:79 | a sum of lengths is not negative |
| GasicQualityCheck.StartPosTiles | lib/gasic-r16/gasic_quality_check.py:79-80 | the corrected offsets start at 0 and tile the array: each reference ends where the next begins, the last at `sum(lengths)` |
| GasicQualityCheck.AsWrittenRightOnlyForFirstLength | lib/gasic-r16/gasic_quality_check.py:80 | the as-written offset of reference `k` is right iff `lengths[k] == lengths[0]` |
| GasicQualityCheck.AsWrittenMisplacesSecondContig | lib/gasic-r16/gasic_quality_check.py:80 | for lengths `[2, 3]` the as-written offsets are `[0, 3]`, the correct ones `[0, 2]` |
| GasicQualityCheck.SliceBound | lib/gasic-r16/gasic_quality_check.py:88 | a slice bound is clipped to `0..n` as numpy does for non-negative bounds |
| GasicQualityCheck.AddOne | lib/gasic-r16/gasic_quality_check.py:88 | `cov[lo:hi] += 1` adds 1 exactly at positions in `[lo, hi)` |
| GasicQualityCheck.Lookup | lib/gasic-r16/gasic_quality_check.py:86 | `start_pos[tid]` succeeds iff `tid` is a valid numpy index, negative ones counted from the end |
| GasicQualityCheck.Step | lib/gasic-r16/gasic_quality_check.py:83-89 | an unmapped read leaves the coverage unchanged; the length never changes |
| GasicQualityCheck.Cover | lib/gasic-r16/gasic_quality_check.py:83-89 | the scan keeps the coverage length |
| GasicQualityCheck.MappedOnly | lib/gasic-r16/gasic_quality_check.py:85 | keeps only mapped records |
| GasicQualityCheck.UnmappedIgnored | lib/gasic-r16/gasic_quality_check.py:85 | scanning all records equals scanning only the mapped ones |
| GasicQualityCheck.SumAddOne | lib/gasic-r16/gasic_quality_check.py:88 | one increment raises the coverage sum by the clipped interval length |
| GasicQualityCheck.CoverageSum | lib/gasic-r16/gasic_quality_check.py:83-89 | after the scan the coverage sum is the initial sum plus the clipped interval lengths of the mapped reads |
| GasicQualityCheck.SumPrefixAtMost | lib/gasic-r16/gasic_quality_check.py:80 | a prefix sum of lengths is at most the total |
| GasicQualityCheck.ReadStaysInContig | lib/gasic-r16/gasic_quality_check.py:86-88 | with the corrected offsets, a mapped read inside its reference covers exactly `qlen` positions starting at its global position |
| GasicQualityCheck.AsWrittenClipsLastContig | lib/gasic-r16/gasic_quality_check.py:80-88 | a 3-base read at the start of the second of references `[2, 3]` covers only 2 positions as written, and 3 when corrected |
| GasicQualityCheck.AddOneInPlace | lib/gasic-r16/gasic_quality_check.py:88 | the in-place increment loop leaves the array equal to the specified increment |
| GasicQualityCheck.ScanFile | lib/gasic-r16/gasic_quality_check.py:79-89 | with the corrected offsets (see Findings): the per-file loop returns a fresh zero-initialised coverage array scanned over all records, `total_reads = |records|`, `mapped_reads` = the mapped count, or the scan's error |
| GasicQualityCheck.MappedAtMostTotal | lib/gasic-r16/gasic_quality_check.py:81-89 | `mapped_reads <= total_reads`, and filtering to mapped records counts them all |
| BaseSpaceSummaryFormat.ParseFileName | bin/BaseSpace_summary_format.py:24-31 | no `__` gives `[name, 'NA']`; a success is two parts that rejoin with `__` to the name; more than one separator fails the assertion |
| BaseSpaceSummaryFormat.FirstSeparator | bin/BaseSpace_summary_format.py:25 | the first `__` is found right after a part that has none and does not end in `_` |
| BaseSpaceSummaryFormat.ParseFileNameRoundTrip | bin/BaseSpace_summary_format.py:24-31 | `runID + '__' + date` parses back to `[runID, date]` |
| BaseSpaceSummaryFormat.ParseFileNameTwoSeparators | bin/BaseSpace_summary_format.py:25-30 | a name with two separators fails the assertion |
| BaseSpaceSummaryFormat.CollapseSpaces | bin/BaseSpace_summary_format.py:46 | collapsing spaces never lengthens a cell |
| BaseSpaceSummaryFormat.NonSpaceLStrip | bin/BaseSpace_summary_format.py:45 | left-stripping spaces keeps the non-space characters |
| BaseSpaceSummaryFormat.CollapseSpacesSound | bin/BaseSpace_summary_format.py:46 | collapsing keeps every non-space character in order and leaves no two adjacent spaces |
| BaseSpaceSummaryFormat.RemoveParens | bin/BaseSpace_summary_format.py:47 | the cell has no `(` or `)` afterwards |
| BaseSpaceSummaryFormat.RemoveParensKeeps | bin/BaseSpace_summary_format.py:47 | every other character is kept |
| BaseSpaceSummaryFormat.CleanLine | bin/BaseSpace_summary_format.py:42-47 | a kept line has at least one cell and no cell contains a parenthesis |
| BaseSpaceSummaryFormat.ReadFileSpec | bin/BaseSpace_summary_format.py:41-49 | at most one row per input line |
| BaseSpaceSummaryFormat.ReadRowsWellFormed | bin/BaseSpace_summary_format.py:41-49 | every row read is non-empty and free of parentheses |
| BaseSpaceSummaryFormat.ReadFile | bin/BaseSpace_summary_format.py:34-52 | the append loop returns exactly the specified cleaned rows |
| BaseSpaceSummaryFormat.FirstTotal | bin/BaseSpace_summary_format.py:73-74 | the first row whose first cell is `Total`, no earlier row being one |
| BaseSpaceSummaryFormat.Cut | bin/BaseSpace_summary_format.py:61-74 | the boundary between the two tables lies within the data |
| BaseSpaceSummaryFormat.Tbl2At | bin/BaseSpace_summary_format.py:64-72 | the second-table rows from position `j` on are no more than the rows left |
| BaseSpaceSummaryFormat.ParseDataSpec | bin/BaseSpace_summary_format.py:55-75 | fails iff a row is empty (`line[0]` raises); `tbl1` has no `Total` row before its last, and either ends with one or is all the data with `tbl2` empty |
| BaseSpaceSummaryFormat.Tbl2Count | bin/BaseSpace_summary_format.py:64-72 | from any position, second-table rows plus level rows account for all remaining rows |
| BaseSpaceSummaryFormat.RowsAccounted | bin/BaseSpace_summary_format.py:61-74 | `|tbl1| + |tbl2| + level rows = |data|` |
| BaseSpaceSummaryFormat.LaneRowTakesLevel | bin/BaseSpace_summary_format.py:65-71 | a single-cell `Lane` row is renamed `Level`, emitted, and its first cell replaced by the current level |
| BaseSpaceSummaryFormat.ReadDataParses | bin/BaseSpace_summary_format.py:101-102 | rows read from a file always parse |
| BaseSpaceSummaryFormat.SecondTableStep | bin/BaseSpace_summary_format.py:65-72 | one second-phase row either sets the level or is emitted under the current level, in agreement with the specification |
| BaseSpaceSummaryFormat.ParseData | bin/BaseSpace_summary_format.py:55-75 | the state machine over `end` and `level` returns exactly the specified tables |
| BaseSpaceSummaryFormat.TableLines | bin/BaseSpace_summary_format.py:78-86 | a header for an empty table fails (`tbl[0]`); otherwise an optional header from `tbl[0]`, then one prefixed line per row of `tbl[1:]` |
| BaseSpaceSummaryFormat.BodyLineFields | bin/BaseSpace_summary_format.py:85 | a body line splits on tabs into file name, run id, date and the row's cells |
| BaseSpaceSummaryFormat.WriteTable | bin/BaseSpace_summary_format.py:78-86 | the writing loop emits exactly the specified lines |
| BaseSpaceSummaryFormat.ProcessFile | bin/BaseSpace_summary_format.py:97-102 | a file is processed only if it exists |
| BaseSpaceSummaryFormat.OneHeaderLine | bin/BaseSpace_summary_format.py:95-106 | the first output gets exactly one header line, for the first file, plus the body lines of every file |
| BaseSpaceSummaryFormat.Summarize | bin/BaseSpace_summary_format.py:89-109 | the loop with its `header` flag produces exactly the specified outputs or the first error |
| Wrappers.RunFrom | lib/gasicBatch/MetaFile.py:96-110 | a generator yields the successful steps in order and stops at the first exception, or runs to the end |
| Wrappers.RunFromRaises | lib/gasicBatch/objects.py:80-81 | a step that raises ends the iteration with its exception |
| PyStr.SplitJoin | lib/gasicBatch/Writer.py:44 | joining fields on a character none of them contains and splitting again gives back the fields |
| PyStr.RStripSet | lib/gasicBatch/core/tools.py:35 | `rstrip(chars)` keeps a prefix, removes only those characters, and leaves none at the end |
| PyStr.ListIndex | lib/gasicBatch/NameFile.py:52-55 | a Python list index is valid iff it lies in `-len..len-1`, and then names position `i` or `i + len` |
| PyStr.Find | bin/BaseSpace_summary_format.py:25 | `find` returns the first occurrence, or none when there is none |
| PyStr.PercentFormatOne | lib/gasic-r16/gasic_create_matrix.py:69-70 | `(a + '%s' + b) % arg` is `a + arg + b` |
| PyStr.NoPlaceholderRaises | lib/gasic-r16/gasic_create_matrix.py:69-70 | formatting a pattern with no placeholder raises |
| PyPath.SplitExtParts | lib/gasicBatch/ReadMapper.py:55 | `splitext` splits into root and extension that rejoin to the path; the extension is empty or one dot-led final component |
| PyPath.SplitExtAddExt | lib/gasicBatch/ReadSimulator.py:63 | `splitext(root + '.' + e)` is `(root, '.' + e)` |
| PyPath.BasenameOfJoin | lib/gasicBatch/ReadSimulator.py:66 | the base name of `join(dir, name)` is `name` |

## Left out

- I/O is not modelled; its results are parameters. This covers opening and reading files, `sys.stdin` in `read_file` (the `-` argument), writing to standard output/error and to files, `os.makedirs`, `os.stat`, and `os.system` runs of bowtie, bowtie2, bwa, mason and dwgsim. Diagnostic messages are modelled only where a row or message is the result (`Writer`).
- Parsing libraries are replaced by their outputs: pysam SAM records, Bio.SeqIO FASTA/FASTQ records, and pandas `read_csv` tables. `pandas_kwargs` are folded into the reader parameter.
- HTTP requests, gzip/zlib decompression and the written file's size in `_dlStage` are one server oracle from URL to status and body. A body either decodes to a file of a given size or is corrupt after writing a given number of bytes.
- `find_executable` is an `onPath` oracle.
- `gasic.bootstrap` / `gasic.bootstrap_par` (not shown, stochastic, floating point), `np.sqrt(var)`, `np.save`/`np.load` of the similarity matrix, and the `corr`, `err` and `p` values are not computed. They appear only as given values in `CorrAbundRes` and in the result lines.
- GasicCorrectAbundances.ResultLineFields: numpy prints the mapped count as a float holding a whole number (`12.0`). The model writes it as the integer followed by `.0`. General float formatting is not modelled, and `corr`, `err` and `p` are given as text.
- Scipy mean/median/stdev in `get_readStats` are left out; only min and max are stored.
- Left out from `gasic_quality_check.py`: maximum and mean coverage, the Poisson test, the zero-coverage fraction, and the plot.
- Python's `hash()` of read names in `unique` is left out: names are compared as themselves, so hash collisions are not modelled.
- Python 2 dict ordering of keyword arguments in `run_mapper`/`make_index` is left out: they are a given ordered sequence.
- `CorrAbundRes.write` and `has_readFile` are left out: both fail on undefined names or a misspelt builtin.
- `MetaFile.gunzip` (prints only), `set_readFile`/`get_readFile` (plain field access), `OutputWriter.lastRun` (writes a data frame to standard output) and the `pd.Series` type check in the row constructor are not modelled.
- objects.py compares strings with `is not`; this is modelled as string equality. With interned literals that is how it behaves.
- `objects.metaFile.download` builds each URL and sends the request but does nothing with the response. The model returns the URLs requested.
- The numpy tensor and matrix hold floats; the model stores the 0/1 integers that are written into them.
- `parse_data` rewrites `line[0]` of the rows it is given, so the caller's `data` is altered too. The model returns new rows and does not capture that aliasing.
- `grinder.run_simulator` only prints `TODO`; it is not modelled.
- The BaseSpace API clients (`BaseSpace_list.py`, `BaseSpace_get.py`, `BaseSpace_listRuns.py`), `gasic_seqDB_batch.py`, `gasic_run_mappers.py` and `doc/example_script.py` are command-line glue or network clients. They are not part of this model.
- MetaFile.DownloadFirstDelivering: proved for the corrected `_dlStage` (see Findings). As written, a stage whose only 200 answer is a corrupt body still counts as delivering when it left a non-empty partial file; `MetaFile.DownloadAsWrittenReportsPartialFile` shows such a download succeeding.
- MetaFile.DlStage: besides keeping the retry's result (see Findings), the corrected retry passes the caller's `lastIter` on, whereas the source resets it to the default 9 on every retry. `download()` always calls with the default, so the two agree on every download; they differ only for a direct call with another `lastIter`.
- MetaFile.MetaFileRow.Download: stores and reports what the corrected `_dlStage` gives (see Findings). As written, it also returns 1 and stores the partial file of a stage whose decompression failed and whose retries all failed.
- GasicQualityCheck.ScanFile: scans with the corrected start offsets (see Findings). As written, reference `k` starts at `l0 + … + lk − l0`; `GasicQualityCheck.AsWrittenClipsLastContig` shows one read whose coverage then differs.
- PyStr.PercentFormat: only patterns whose conversions are `%s` and `%%` are modelled. With one string argument, Python 2 fills in `%r` and width or flag forms such as `%5s` and `%-8s`, raises `TypeError` for `%d`, `%i` and `%f` (a number is required) and for `%(key)s` (a mapping is required), and raises `ValueError("incomplete format")` for a trailing `%`; the model answers every one of these with `ValueError("unsupported format character")`. The patterns come from command-line options whose defaults and help text use only `%s`.
- MetaFile.RowStep: `rowIndex` is the row's position in the table. With an `index_col` in `pandas_kwargs`, pandas' `iterrows` gives the index label instead, which the model does not capture.
- NameFile.NameFile.IterNames: yields the stored entries as values. In Python the yielded dicts are the stored ones, so a caller's edits to them change the name file; the model does not capture that aliasing. The same holds for `NameFile.NameFile.GetNamesRow`.
- GasicQualityCheck.SliceBound: its contract states the clipping only for non-negative bounds. Its body counts a negative bound from the end, as numpy does; such bounds arise only from negative positions, which mapped SAM records do not have.
- GasicQualityCheck.Lookup: a `tid` of a mapped read that is out of range is an error, as numpy's `IndexError` would be. `-1` for unmapped reads is never looked up.

## Findings

| source | as written | input that shows it | evidently intended | confidence | as-written member | corrected member |
|---|---|---|---|---|---|---|
| lib/gasic-r16/gasic_quality_check.py:80 | `start_pos = cumsum(lengths) - lengths[0]` gives reference `k` the offset `l0 + … + lk − l0`, which is right only when `lk == l0` | references of lengths `[2, 3]`: offsets `[0, 3]` instead of `[0, 2]`, so a 3-base read at the start of the second reference covers positions 3–4 and is clipped to 2 positions | exclusive prefix sums `[0, l0, l0 + l1, …]`, so the references tile the coverage array | high (not executed) | GasicQualityCheck.StartPosAsWritten (GasicQualityCheck.AsWrittenMisplacesSecondContig, GasicQualityCheck.AsWrittenClipsLastContig, GasicQualityCheck.AsWrittenRightOnlyForFirstLength) | GasicQualityCheck.StartPos (GasicQualityCheck.StartPosTiles, GasicQualityCheck.ReadStaysInContig), used by GasicQualityCheck.ScanFile |
| lib/gasicBatch/MetaFile.py:234-242 | after a decompression failure, the recursive retry's result is discarded and the size of the partially written file decides the outcome | iteration 1 answers 200 with a body that writes 5 bytes and then fails to decompress, and iteration 2 answers 404: the stage reports the partial file as downloaded | the retry's result is the stage's result | high (not executed) | MetaFile.DlStageAsWritten (MetaFile.DlStageAsWrittenReportsPartialFile, MetaFile.DownloadAsWrittenFirstReporting, MetaFile.DownloadAsWrittenReportsPartialFile) | MetaFile.DlStage (MetaFile.DlStageDelivers), used by MetaFile.MetaFileRow.Download |
| lib/gasicBatch/ReadSimulator.py:1-27 | `exeExists` calls `find_executable`, which the module never imports | `getSimulator('mason')`: constructing `mason` raises `NameError` whether or not mason is installed | `from distutils.spawn import find_executable`, as the mapper module's path check behaves | high (not executed) | ReadSimulator.GetSimulatorAsWritten (ReadSimulator.MasonUnreachableAsWritten) | ReadSimulator.GetSimulator (ReadSimulator.ExeExists) |
