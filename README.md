# claude-clis document conversion core, in Dafny

This project models the logic of claude-clis, a command-line toolkit whose main tool, doc2md, converts PDF, Word, text and Markdown documents to Markdown by sending their text to a language model. Dafny proves properties of that model.

The model covers these parts:

- **Chunked conversion** (`ai_client.py`). The model covers:
  - the chunking loop, which cuts at a paragraph break, else at a sentence end, else at the chunk size (`Chunking`);
  - the conversion prompt and the ordered per-chunk requests joined by `---` rules (`Conversion`);
  - the client's per-provider model cache and API-key resolution (`Client`).
- **Markdown post-processing** (`markdown_writer.py`). Each regular-expression step is written as an explicit scanner:
  - whitespace cleaning (`MarkdownClean`);
  - table reflow (`MarkdownTables`);
  - the table of contents (`MarkdownToc`);
  - validation (`MarkdownValidate`);
  - frontmatter and the fixed order of steps in `write_markdown` (`MarkdownWriter`).
- **Orchestration** (`processor.py`, module `Processor`). The model covers:
  - the supported formats;
  - the output path;
  - the extraction dispatch;
  - the error wrapping;
  - the single write of the whole text;
  - the batch bookkeeping.
- **Readers** (`pdf.py`, `word.py`: `PdfReader`, `WordReader`). These work over abstract values: page texts, paragraphs with their runs, and tables as rows of cells. The model covers page assembly and the fallback, heading mapping, run emphasis and table emission.
- **Utilities** (`utils.py`, module `Utils`). The model covers:
  - file-name sanitising and the extension checks;
  - the output-path and relative-path rules;
  - the backup-name search;
  - `CLIContext`'s level filter.
- **Configuration** (`config.py`, module `Settings`; `main.py`, module `ConfigTable`). The model covers:
  - the defaults tree;
  - loading a file's data through pydantic's validation: lax conversion of strings and numbers to each field's declared type, the `Literal` check on the provider, nested records ignoring unknown keys and the top-level settings rejecting them;
  - the load cache and the save guard;
  - provider resolution and per-provider sections;
  - dotted-key get and set, where set stores the CLI's string unvalidated and the next load validates it;
  - the flattened, masked table that `config show` prints.
- **Claude Code slash commands** (`claude_code.py`, module `ClaudeCode`). The model covers the record builder, the four registered commands, the skip/write partition of `register`, and `unregister`.

Shared modules:

- `Base`: `Option` and `Result`.
- `Text`: Python's string operations on ASCII.
- `Paths`: the parts of `pathlib` that are used, with Python 3.12 semantics, on paths in normal form.
- `Files`: a class `Store` that holds file texts by path, the set of directories, and the paths where opening for writing fails.

Things outside the program are parameters:

- the language model is a completion function from a prompt and a system prompt to a reply or an error;
- the PDF and Word libraries are functions from a path to a parse result;
- environment variables, the current directory, `shutil.which`, the clock and JSON/YAML (de)serialisation are passed in as values or functions.

Approximations:

- Python's `\s`, `\w` and `str.strip()` are approximated on ASCII. Whitespace means characters 9-13, 28-32; `\w` means ASCII letters, digits and `_`.
- Asynchronous batch conversion is modelled as a sequential loop. `asyncio.gather` keeps task order, so results come in file order either way.

## Model

| member | source | states |
|---|---|---|
| Chunking.LastParagraphBreak | src/claude_clis/shared/ai_client.py:182-185 | the result, if any, is the largest position of the window (lo, hi] where "\n\n" starts; none means the window has no such position |
| Chunking.LastSentenceEnd | src/claude_clis/shared/ai_client.py:188-191 | the result, if any, is the largest position of (lo, hi] holding '.', '!' or '?'; none means there is none |
| Chunking.NextCut | src/claude_clis/shared/ai_client.py:178-191 | with chunk_size at least 1 the next cut lies after the current position, within the text, and at most chunk_size + 2 past it; with a smaller size it does not advance |
| Chunking.NextCutRule | src/claude_clis/shared/ai_client.py:178-191 | the cut rule without the search functions: the text's end at the end; otherwise two past the last paragraph break of the 200-wide window, else one past the last sentence end of the 100-wide window, else the nominal end |
| Chunking.RawPiecesTile | src/claude_clis/shared/ai_client.py:176-197 | the raw slices content[current_pos:end_pos] concatenate back to the rest of the text |
| Chunking.RawPieceBounds | src/claude_clis/shared/ai_client.py:182-190 | every raw slice has between 1 and chunk_size + 2 characters |
| Chunking.Cuts | src/claude_clis/shared/ai_client.py:176-197 | the cut positions increase strictly, stay within the text and end at its length |
| Chunking.PiecesBetweenCuts | src/claude_clis/shared/ai_client.py:176-197 | there is one raw slice per cut, and slice k is the text from the previous cut (or the start) up to cut k |
| Chunking.KeepStripped | src/claude_clis/shared/ai_client.py:193-195 | keeping stripped non-blank slices never yields more chunks than slices |
| Chunking.KeptAreNonBlank | src/claude_clis/shared/ai_client.py:193-195 | no kept chunk is empty or starts or ends with whitespace |
| Chunking.KeptAreStrippedPieces | src/claude_clis/shared/ai_client.py:193-195 | every kept chunk is the stripped form of one raw slice |
| Chunking.ChunksOfShortText | src/claude_clis/shared/ai_client.py:170-171 | a text no longer than chunk_size comes back as the single unstripped chunk, even when empty or blank |
| Chunking.ChunksOfLongText | src/claude_clis/shared/ai_client.py:173-199 | a longer text gives non-blank chunks, each one stripped raw slice of at most chunk_size + 2 characters, and the slices tile the text |
| Chunking.NoProgressWithoutPositiveSize | src/claude_clis/shared/ai_client.py:176-197 | with chunk_size 0 or less the position never advances, so the loop does not end |
| Chunking.KeepStrippedStep | src/claude_clis/shared/ai_client.py:193-197 | one iteration keeps the stripped next slice in front of the rest exactly when it is non-blank |
| Chunking.FindParagraphBreak | src/claude_clis/shared/ai_client.py:182-185 | the backward loop with its break finds the last paragraph break of the window |
| Chunking.FindSentenceEnd | src/claude_clis/shared/ai_client.py:186-191 | the else-branch loop finds the last sentence end of its window |
| Chunking.NextEnd | src/claude_clis/shared/ai_client.py:178-191 | the chosen end_pos is the cut of the rule above |
| Chunking.ChunkContent | src/claude_clis/shared/ai_client.py:169-199 | the while loop returns `Chunks(content, size)`: the text itself when it fits, else the non-blank stripped slices of the cut sequence (ChunksOfShortText, ChunksOfLongText) |
| Chunking.ChunkLoop | src/claude_clis/shared/ai_client.py:173-199 | the while loop returns the stripped non-blank raw slices in order |
| Chunking.ChunkStep | src/claude_clis/shared/ai_client.py:178-197 | one pass advances the position and keeps the chunks found so far plus those still to come equal to the whole result |
| Conversion.PromptLayout | src/claude_clis/shared/ai_client.py:120-141 | the prompt is the fixed intro, the line chosen by preserve_formatting ("Preserve original formatting…" or "Focus on clean, readable structure"), the style verbatim, the fixed middle, the content verbatim and the closing line, at the stated offsets |
| Conversion.PromptDeterminesContent | src/claude_clis/shared/ai_client.py:126-139 | for one style and flag, the prompt determines the content it embeds |
| Conversion.PartPrompts | src/claude_clis/shared/ai_client.py:219-222 | one prompt per chunk; prompt i is the conversion prompt of chunk i followed by "\n\nNote: This is part {i+1} of {N} of a larger document." |
| Conversion.Replies | src/claude_clis/shared/ai_client.py:219-230 | a successful run has one reply per remaining prompt |
| Conversion.Calls | src/claude_clis/shared/ai_client.py:219-230 | no more requests are sent than prompts remain |
| Conversion.RepliesInOrder | src/claude_clis/shared/ai_client.py:219-230 | when every part succeeds, each prompt is sent exactly once, in chunk order, with the part system prompt, and reply j answers prompt j |
| Conversion.RepliesFailure | src/claude_clis/shared/ai_client.py:224-229 | a failing run stops at its first failing request and reports that request's error; every earlier request succeeded |
| Conversion.NoChunksNoCall | src/claude_clis/shared/ai_client.py:210-232 | when chunking yields no chunk the result is "" and no request is sent |
| Conversion.ShortTextOneCall | src/claude_clis/shared/ai_client.py:210-215 | a text that fits is converted by exactly one request on the original content with the converter's system prompt |
| Conversion.Answers | src/claude_clis/shared/ai_client.py:224-230 | when no request fails, answer j is the reply to prompt j |
| Conversion.AllSucceed | src/claude_clis/shared/ai_client.py:219-230 | replies succeed when every request does, and are then the answers in prompt order |
| Conversion.ManyChunksJoined | src/claude_clis/shared/ai_client.py:217-232 | with two or more chunks there is one request per chunk, in order, and the result is the answers joined with "\n\n---\n\n" |
| Conversion.ProcessLargeContent | src/claude_clis/shared/ai_client.py:201-232 | the method's result and request list are `ProcessLarge` and `ProcessLargeCalls`: no request for no chunks, one conversion of the whole text for one, numbered part prompts joined by the rule otherwise |
| Conversion.AskInOrder | src/claude_clis/shared/ai_client.py:218-230 | the loop's replies and requests are `Replies` and `Calls`: one request per prompt in order, stopping at the first failure |
| Conversion.StepReplies | src/claude_clis/shared/ai_client.py:224-230 | one iteration: a failing reply ends the run with its error; a successful one is appended and the run goes on with the next prompt |
| Client.FirstKeyFound | src/claude_clis/shared/ai_client.py:33 | the `or` chain finds a key exactly when the configured key is truthy or some environment key is non-empty, and the key found is truthy (see also src/claude_clis/shared/ai_client.py:57) |
| Client.GeminiKeySources | src/claude_clis/shared/ai_client.py:31-43 | Gemini raises AIClientError exactly when the configured key, GOOGLE_API_KEY and GEMINI_API_KEY are all unset, with the fixed message; otherwise the configured key wins over GOOGLE_API_KEY |
| Client.AnthropicKeySources | src/claude_clis/shared/ai_client.py:55-67 | Anthropic raises AIClientError exactly when the configured key and ANTHROPIC_API_KEY are both unset; otherwise the model gets the first key found |
| Client.OllamaNeedsNoKey | src/claude_clis/shared/ai_client.py:45-53 | Ollama never raises AIClientError; it builds the OpenAI-compatible model at base_url + "/v1" with the placeholder key "ollama" and the configured timeout |
| Client.DefaultOllamaModel | src/claude_clis/shared/ai_client.py:45-53 | with the default configuration Ollama builds "llama3.2:latest" at "http://localhost:11434/v1" with timeout 120, and test_provider answers true |
| Client.DefaultGeminiNeedsKey | src/claude_clis/shared/ai_client.py:31-38 | with the default empty Gemini key and no key in the environment, test_provider("gemini") answers false (see also src/claude_clis/shared/ai_client.py:108-113) |
| Client.UnknownNameRaises | src/claude_clis/shared/ai_client.py:29 | a non-empty unknown name raises ValueError "Unknown AI provider: …" in the configuration, so test_provider raises instead of answering false (see also src/claude_clis/shared/ai_client.py:108-113) |
| Client.EmptyNameReachesClientError | src/claude_clis/shared/ai_client.py:69-70 | the empty name reaches the client's own "Unknown AI provider: " AIClientError, and test_provider answers false (see also src/claude_clis/shared/ai_client.py:108-113) |
| Client.CachedModelReturned | src/claude_clis/shared/ai_client.py:26-27 | a model once built is returned on every later call whatever the environment and configuration are by then (see also src/claude_clis/shared/ai_client.py:72-73) |
| Client.AIClient.constructor | src/claude_clis/shared/ai_client.py:21-23 | a new client holds its manager and an empty model cache |
| Client.AIClient.GetModel | src/claude_clis/shared/ai_client.py:25-73 | the result is `Resolve` of the provider, the environment, the cache and the loaded configuration; a success is added to the cache and nothing else is; a cached provider leaves the manager untouched |
| Client.AIClient.AvailableProviders | src/claude_clis/shared/ai_client.py:105-106 | the names are gemini, ollama, anthropic in that order |
| Client.AIClient.TestProvider | src/claude_clis/shared/ai_client.py:108-113 | true when a model is obtained, false on AIClientError, other errors propagate; true exactly when the provider is then cached |
| Settings.Lookup | src/claude_clis/shared/config.py:139 | an attribute is found exactly when the record declares a field of that name (see also src/claude_clis/shared/config.py:151) |
| Settings.SetField | src/claude_clis/shared/config.py:141 | setattr keeps the record's field names, in order |
| Settings.LookupSetField | src/claude_clis/shared/config.py:141 | after setattr the assigned field reads the new value and every other field reads as before |
| Settings.SetPathDefinedIff | src/claude_clis/shared/config.py:135-141 | setting a dotted key succeeds exactly when reading that key would |
| Settings.GetAfterSet | src/claude_clis/shared/config.py:131-153 | a value set under a key path reads back under that path |
| Settings.OtherKeysUnchanged | src/claude_clis/shared/config.py:131-153 | setting one key leaves every key path that branches off from it unchanged |
| Settings.EmptyFileGivesDefaults | src/claude_clis/shared/config.py:82-88 | no file, an empty file, or a file whose data is falsy (`safe_load(f) or {}`) builds the declared defaults |
| Settings.OverlayNothing | src/claude_clis/shared/config.py:88 | building a record from no data gives its defaults |
| Settings.DefaultsWellFormed | src/claude_clis/shared/config.py:12-53 | the default configuration has distinct field names in every record, and every default has its field's declared type |
| Settings.Coerce | src/claude_clis/shared/config.py:12-16 | pydantic's lax validation of a leaf against its declared type: a success has that type, and a value that already has it is kept as it is (see also src/claude_clis/shared/config.py:34, 42-43) |
| Settings.ToWhole | src/claude_clis/shared/config.py:16 | an int field keeps an int and accepts a bool, an integral float or an integer string, converted to an int; anything else fails |
| Settings.ToReal | src/claude_clis/shared/config.py:15 | a float field keeps a float and accepts an int, a bool or a decimal string, converted to a float; anything else fails |
| Settings.ToFlag | src/claude_clis/shared/config.py:43 | a bool field keeps a bool and accepts 0/1, 0.0/1.0 and the yes/no words; anything else fails |
| Settings.FlagWord | src/claude_clis/shared/config.py:43 | a string is accepted for a bool field exactly when it is one of the true or false words, and it reads as True exactly for the true words |
| Settings.ParseIntToString | src/claude_clis/shared/config.py:16 | the decimal text of any integer reads back as that integer |
| Settings.IntTextCoerced | src/claude_clis/shared/config.py:42 | an int field given the decimal text of n validates to n |
| Settings.FlagTextCoerced | src/claude_clis/shared/config.py:43 | a bool field given a string reads it as True for a true word, False for a false word, in any case, and fails with bool_parsing otherwise |
| Settings.WordsDisjoint | src/claude_clis/shared/config.py:43 | no word is both a true word and a false word |
| Settings.ChoiceCoerced | src/claude_clis/shared/config.py:34 | a Literal field accepts exactly the listed strings, unchanged, and fails with literal_error for everything else |
| Settings.OverlayIdentity | src/claude_clis/shared/config.py:88 | data in which every field has its declared type validates to exactly that data, so a dumped configuration reloads unchanged (see also src/claude_clis/shared/config.py:101-103) |
| Settings.FieldsSucceed | src/claude_clis/shared/config.py:88 | when every declared field validates, the record is the validated fields in declaration order |
| Settings.FieldsFailAt | src/claude_clis/shared/config.py:88 | when a field fails after fields that all validate, the record fails with that field's error |
| Settings.UnknownKeysIgnored | src/claude_clis/shared/config.py:12-48 | a nested record ignores keys it does not declare and gives its defaults |
| Settings.UnknownSectionKeyIgnored | src/claude_clis/shared/config.py:33-37 | an unknown key inside the ai section is ignored and the file builds the defaults |
| Settings.UnknownTopKeyRejected | src/claude_clis/shared/config.py:51-57 | an unknown top-level key fails the load with extra_forbidden |
| Settings.OverlayFits | src/claude_clis/shared/config.py:88 | a configuration that validates has the declared type at every field |
| Settings.SaveLoadRoundTrip | src/claude_clis/shared/config.py:77-103 | every configuration that loads has the declared types, and a configuration of those types, once saved, loads back unchanged |
| Settings.PathFits | src/claude_clis/shared/config.py:138-141 | a key path names something in a valid configuration exactly when it names a declared field; the two are both records or both leaves, and the value fits the declared field |
| Settings.SetFieldAt | src/claude_clis/shared/config.py:141 | setattr on a record replaces that one field and keeps every other |
| Settings.FieldsSet | src/claude_clis/shared/config.py:88 | validating a valid record with one field replaced gives that field's validation error, or the record with the validated value in place |
| Settings.OverlaySetPath | src/claude_clis/shared/config.py:88 | validating a valid configuration with one key path replaced gives the error of the new value against that key's declared field, or the configuration with the validated value in place |
| Settings.ProviderFrom | src/claude_clis/shared/config.py:105-116 | a non-empty override wins, else a non-empty CLAUDE_CLIS_AI_PROVIDER, else the configured ai.provider |
| Settings.Section | src/claude_clis/shared/config.py:122-129 | a name outside gemini/ollama/anthropic fails with "Unknown AI provider: " + name; a success is the record under ai.<name> |
| Settings.AiConfigDispatch | src/claude_clis/shared/config.py:118-129 | an unknown given name fails with ValueError; a missing or empty name falls back to the environment's provider, else the configured one |
| Settings.DefaultProvider | src/claude_clis/shared/config.py:34 | the default provider is gemini |
| Settings.DefaultGeminiSection | src/claude_clis/shared/config.py:12-16 | get_ai_config("gemini") on the defaults is the declared Gemini defaults (see also src/claude_clis/shared/config.py:122-123) |
| Settings.DefaultOllamaSection | src/claude_clis/shared/config.py:19-23 | get_ai_config("ollama") on the defaults is the declared Ollama defaults (see also src/claude_clis/shared/config.py:124-125) |
| Settings.DefaultAnthropicSection | src/claude_clis/shared/config.py:26-30 | get_ai_config("anthropic") on the defaults is the declared Anthropic defaults (see also src/claude_clis/shared/config.py:126-127) |
| Settings.FreshConfigValues | src/claude_clis/shared/config.py:12-53 | a fresh configuration has provider gemini, model gemini-1.5-pro, Ollama at http://localhost:11434 with timeout 120, style technical and chunk size 4000 |
| Settings.SetThenGet | src/claude_clis/shared/config.py:131-153 | set_config_value(k, v) then get_config_value(k) gives v; keys branching off elsewhere keep their values |
| Settings.SetFailsWhere | src/claude_clis/shared/config.py:138-141 | setting fails exactly where reading the key fails, and when the parent is a record the failure means that record lacks the last key |
| Settings.SetFailsMidway | src/claude_clis/shared/config.py:139 | a missing attribute on the way to the parent fails the set with AttributeError |
| Settings.SetFailsAtEnd | src/claude_clis/shared/config.py:141 | a parent without the last key fails the set with ValueError when it is a record and with AttributeError when it is a leaf |
| Settings.SetThenReload | src/claude_clis/shared/config.py:131-142 | the value is stored unvalidated and validated on the next load: on a valid configuration and a key it has, the reload fails with the value's error against the key's declared field, or gives the configuration with the converted value set (see also src/claude_clis/shared/config.py:77-89) |
| Settings.ChunkSizeFromCli | src/claude_clis/main.py:100-111 | `config set tools.doc2md.chunk_size` with the text of n saves that text, and the next load reads it as the integer n (see also src/claude_clis/shared/config.py:42) |
| Settings.PreserveFormattingFromCli | src/claude_clis/main.py:100-111 | `config set tools.doc2md.preserve_formatting false` (any false word, in any case) reloads as False, not as a truthy string (see also src/claude_clis/shared/config.py:43) |
| Settings.UnknownProviderFromCli | src/claude_clis/main.py:100-111 | setting ai.provider to a name outside the three providers succeeds, but the saved file then fails to load with literal_error (see also src/claude_clis/shared/config.py:34) |
| Settings.ConfigManager.constructor | src/claude_clis/shared/config.py:61-64 | a new manager has no cached configuration |
| Settings.ConfigManager.LoadConfig | src/claude_clis/shared/config.py:77-89 | the cached configuration if any, else one built from the file (or from {}) and cached; the file is not changed |
| Settings.ConfigManager.SaveConfig | src/claude_clis/shared/config.py:91-103 | a passed configuration becomes the cached one; with nothing cached it fails with "No config to save" and writes nothing; otherwise the file holds the cached configuration |
| Settings.ConfigManager.GetAiProvider | src/claude_clis/shared/config.py:105-116 | the provider of the priority rule; the configuration is loaded only when neither override nor environment gives one |
| Settings.ConfigManager.GetAiConfig | src/claude_clis/shared/config.py:118-129 | the section of the dispatch rule, after loading |
| Settings.ConfigManager.SetConfigValue | src/claude_clis/shared/config.py:131-142 | a failed load is passed on and changes nothing; a failed walk or assignment gives SetValue's AttributeError or ValueError text and leaves the file as it was, with the loaded configuration cached; a success caches and saves the new configuration, unvalidated |
| Settings.ConfigManager.GetConfigValue | src/claude_clis/shared/config.py:144-153 | the value the attribute walk reaches, or the error of the first missing attribute; the file is not changed |
| ConfigTable.Display | src/claude_clis/main.py:235 | a leaf whose own key contains "key" in any case and whose value is truthy shows "***"; every other leaf shows str(value) |
| ConfigTable.Leaves | src/claude_clis/main.py:228-236 | the reference description of the rows: every listed leaf has a non-empty path and a scalar value |
| ConfigTable.Under | src/claude_clis/main.py:229-232 | the leaves of a nested mapping, each with the mapping's key put in front of its path |
| ConfigTable.LeafRows | src/claude_clis/main.py:229-236 | one row per leaf, in the leaves' order |
| ConfigTable.FlattenIsLeafRows | src/claude_clis/main.py:227-236 | flatten_dict emits one row per scalar leaf, in depth-first insertion order, keyed by its path and masked by its own key |
| ConfigTable.FlattenOneIsLeafRows | src/claude_clis/main.py:229-236 | a nested field contributes its sub-leaves with its key in front; a scalar field contributes one row |
| ConfigTable.TopLevelKey | src/claude_clis/main.py:229 | from the top level the key of a leaf is its path joined with '.' |
| ConfigTable.NestedKey | src/claude_clis/main.py:229 | under a non-empty parent key the key is the parent, a '.', and the path joined with '.' |
| ConfigTable.LeavesNamed | src/claude_clis/main.py:228-232 | with non-empty field names, every leaf path consists of non-empty names |
| ConfigTable.ConfigRows | src/claude_clis/main.py:223-238 | row k is the k-th scalar leaf, keyed by its dotted path and shown as "***" or str(value) by its own key |
| ConfigTable.NestedGivesNoRow | src/claude_clis/main.py:231-232 | an empty nested mapping contributes no row |
| ConfigTable.TableRows.constructor | src/claude_clis/main.py:225 | the row list starts empty |
| ConfigTable.TableRows.FlattenDict | src/claude_clis/main.py:227-236 | the recursive method appends to the shared list exactly `Flatten(d, parent)`, the depth-first leaf rows (FlattenIsLeafRows) |
| ConfigTable.FlattenSnoc | src/claude_clis/main.py:228 | each further field of the loop appends that field's rows |
| ConfigTable.FlattenConcat | src/claude_clis/main.py:228 | the rows of two consecutive field runs are the rows of each in turn |
| ConfigTable.PrintConfigTable | src/claude_clis/main.py:223-238 | the rows collected for the table are the flattening of the whole configuration |
| MarkdownClean.SpaceRun | src/claude_clis/tools/doc2md/markdown_writer.py:15 | the length of the longest prefix of whitespace, the greedy \s* |
| MarkdownClean.WordRun | src/claude_clis/tools/doc2md/markdown_writer.py:25 | the length of the longest prefix of word characters, the greedy \w* |
| MarkdownClean.DigitRun | src/claude_clis/tools/doc2md/markdown_writer.py:22 | the length of the longest prefix of digits, the greedy \d+ |
| MarkdownClean.CleanShape | src/claude_clis/tools/doc2md/markdown_writer.py:12-35 | the cleaned text ends in exactly one '\n' with no whitespace before it, and no line has trailing whitespace |
| MarkdownClean.StripTail | src/claude_clis/tools/doc2md/markdown_writer.py:29-33 | right-stripping every line, then the whole text, then adding one line break gives text ending in a single line break with no whitespace at line ends, whatever text came before |
| MarkdownClean.StrippedLinesClean | src/claude_clis/tools/doc2md/markdown_writer.py:29-30 | joining right-stripped lines with '\n' leaves no whitespace before a newline except newlines |
| MarkdownClean.FinalNewline | src/claude_clis/tools/doc2md/markdown_writer.py:33 | appending '\n' to a right-stripped text ends it in one newline and keeps lines clean |
| MarkdownClean.ListSpacingIdentity | src/claude_clis/tools/doc2md/markdown_writer.py:22 | the list-spacing substitution is the identity |
| MarkdownClean.UngapHeadingGap | src/claude_clis/tools/doc2md/markdown_writer.py:18 | the heading rule only inserts one '\n' before each '#' that follows a newline: removing those gives the text back |
| MarkdownClean.GapNoBareHeading | src/claude_clis/tools/doc2md/markdown_writer.py:18 | after the heading rule no text starts with a newline followed by '#' |
| MarkdownClean.HeadingGapAfterBlank | src/claude_clis/tools/doc2md/markdown_writer.py:18 | a blank line before a heading does not stop the rule: "\n\n# b" becomes "\n\n\n# b" |
| MarkdownClean.NoFenceUnchanged | src/claude_clis/tools/doc2md/markdown_writer.py:25-26 | without backticks both code-block substitutions leave the text unchanged |
| MarkdownClean.StripLinesOf | src/claude_clis/tools/doc2md/markdown_writer.py:29-30 | lines that are already right-stripped survive the line step unchanged |
| MarkdownClean.CleanNotIdempotent | src/claude_clis/tools/doc2md/markdown_writer.py:12-35 | "x\n# y" cleans to "x\n\n# y\n", which cleans again to "x\n\n\n# y\n": cleaning is not idempotent and its output can hold three newlines in a row |
| MarkdownClean.CollapseKeep | src/claude_clis/tools/doc2md/markdown_writer.py:15 | a non-whitespace character is never part of a collapsed match |
| MarkdownClean.CollapseShortRun | src/claude_clis/tools/doc2md/markdown_writer.py:15 | a whitespace run holding fewer than three newlines is kept as it is |
| MarkdownTables.LastPipe | src/claude_clis/tools/doc2md/markdown_writer.py:72 | the last '\|' of a window, if any: the greedy [^\n]+ or [^\n]* backtracking to the final '\|' of the line |
| MarkdownTables.Extend | src/claude_clis/tools/doc2md/markdown_writer.py:72 | the repeated group grows a match line by line; the match still ends in '\|' and stays within the text |
| MarkdownTables.MatchEnd | src/claude_clis/tools/doc2md/markdown_writer.py:72 | a match starts at '\|', holds at least one more character before its last '\|', and ends in '\|' |
| MarkdownTables.Rows | src/claude_clis/tools/doc2md/markdown_writer.py:83-85 | one cell list per table line, in order, each the stripped pieces between the outer pipes |
| MarkdownTables.MaxCols | src/claude_clis/tools/doc2md/markdown_writer.py:91 | the largest cell count: no row has more, and some row has exactly that many |
| MarkdownTables.MaxLen | src/claude_clis/tools/doc2md/markdown_writer.py:94-98 | the longest cell of a column over the rows that reach it, 0 if none does |
| MarkdownTables.Widths | src/claude_clis/tools/doc2md/markdown_writer.py:92-99 | one width per column up to the widest row, each max(longest cell, 3) |
| MarkdownTables.Pad | src/claude_clis/tools/doc2md/markdown_writer.py:105-106 | the row extended with "" to the column count, its own cells kept |
| MarkdownTables.LJust | src/claude_clis/tools/doc2md/markdown_writer.py:112 | the cell padded on the right with spaces to the width, never cut |
| MarkdownTables.RowCells | src/claude_clis/tools/doc2md/markdown_writer.py:109-112 | cell j becomes " " + cell padded to width j + " " |
| MarkdownTables.RuleCells | src/claude_clis/tools/doc2md/markdown_writer.py:119 | dash cell j is " " + width-j dashes + " " |
| MarkdownTables.RowLines | src/claude_clis/tools/doc2md/markdown_writer.py:103-115 | one formatted line per row |
| MarkdownTables.FormatTableLoops | src/claude_clis/tools/doc2md/markdown_writer.py:74-123 | the loops of format_table compute `FormatTable`, whose layout TableShape and SameLengths describe |
| MarkdownTables.EmitLines | src/claude_clis/tools/doc2md/markdown_writer.py:102-123 | the row loop emits each formatted row, with the dash row right after the first when there are several rows |
| MarkdownTables.LinesStep | src/claude_clis/tools/doc2md/markdown_writer.py:103-121 | one iteration appends the row's line, and the dash row after row 0 of a table of several rows |
| MarkdownTables.LayoutStep | src/claude_clis/tools/doc2md/markdown_writer.py:103-121 | the emitted order grows by one row's lines per iteration |
| MarkdownTables.ParseRows | src/claude_clis/tools/doc2md/markdown_writer.py:82-85 | the parsing loop collects `Rows(lines)`: the stripped cells between the outer pipes of each line |
| MarkdownTables.CountCols | src/claude_clis/tools/doc2md/markdown_writer.py:91 | the loop computes the largest cell count |
| MarkdownTables.ColumnWidths | src/claude_clis/tools/doc2md/markdown_writer.py:92-99 | the nested loops compute `Widths(rows)`: per column, max(3, longest stripped cell) (WidthsBound) |
| MarkdownTables.ColumnMax | src/claude_clis/tools/doc2md/markdown_writer.py:95-98 | the inner loop finds the length of the longest stripped cell in one column, 0 when no row reaches that column |
| MarkdownTables.PadRow | src/claude_clis/tools/doc2md/markdown_writer.py:105-106 | the padding loop gives the padded row |
| MarkdownTables.FormatCells | src/claude_clis/tools/doc2md/markdown_writer.py:109-112 | the cell loop gives the formatted cells |
| MarkdownTables.WidthsBound | src/claude_clis/tools/doc2md/markdown_writer.py:92-99 | every width is at least 3 and at least every cell of its column, and is 3 or some cell's length |
| MarkdownTables.RowLength | src/claude_clis/tools/doc2md/markdown_writer.py:114 | a row whose cells fit their widths is exactly as long as the dash row (see also src/claude_clis/tools/doc2md/markdown_writer.py:120) |
| MarkdownTables.PaddedFits | src/claude_clis/tools/doc2md/markdown_writer.py:105-112 | a row padded to the widest row has one cell per width, each fitting it |
| MarkdownTables.SameLengths | src/claude_clis/tools/doc2md/markdown_writer.py:103-115 | every formatted row has the dash row's length |
| MarkdownTables.LayoutLengths | src/claude_clis/tools/doc2md/markdown_writer.py:103-121 | with two or more rows, the emitted lines are the first row, the dash row, then the other rows, all of one length |
| MarkdownTables.LinesShape | src/claude_clis/tools/doc2md/markdown_writer.py:103-123 | for two or more rows there is one line per row plus the dash row in second place, all of one length |
| MarkdownTables.TableShape | src/claude_clis/tools/doc2md/markdown_writer.py:74-123 | a match of two or more lines is re-emitted as its rows padded to the widest row, with the dash row after the first, and every line of the same length (see also tests/tools/doc2md/test_markdown_writer.py:55-59) |
| MarkdownTables.FormatTableIs | src/claude_clis/tools/doc2md/markdown_writer.py:76-123 | a match of two or more lines becomes its emitted lines joined with '\n' |
| MarkdownTables.SeparatorRowRepeated | src/claude_clis/tools/doc2md/markdown_writer.py:83-85 | an existing "\|---\|" row is parsed as an ordinary row, and when its dashes fill their columns it comes out equal to, and right after, the inserted dash row (see also src/claude_clis/tools/doc2md/markdown_writer.py:117-121) |
| MarkdownTables.OneLineKept | src/claude_clis/tools/doc2md/markdown_writer.py:78-79 | a one-line match is left as it is |
| MarkdownTables.NoBreakKept | src/claude_clis/tools/doc2md/markdown_writer.py:72 | from any point, text without a line break is copied unchanged: every match lies on one line and is left as it is (see also src/claude_clis/tools/doc2md/markdown_writer.py:125) |
| MarkdownTables.NoPipeKept | src/claude_clis/tools/doc2md/markdown_writer.py:125 | from any point, text without a '\|' is copied unchanged, since no match can start |
| MarkdownTables.NoTableKept | src/claude_clis/tools/doc2md/markdown_writer.py:125 | text without a line break or without a '\|' is left unchanged |
| MarkdownToc.HashRun | src/claude_clis/tools/doc2md/markdown_writer.py:40 | the length of the run of '#' at a position |
| MarkdownToc.SpaceRunAt | src/claude_clis/tools/doc2md/markdown_writer.py:40 | the length of the run of whitespace at a position |
| MarkdownToc.TitleStart | src/claude_clis/tools/doc2md/markdown_writer.py:40 | where \s+ hands over to .+: the latest start within the whitespace run that leaves a non-newline character |
| MarkdownToc.MatchAt | src/claude_clis/tools/doc2md/markdown_writer.py:40 | a heading match starts at a line start, takes the whole run of 1 to 6 hashes, and has a non-empty title without newlines that ends at a line end |
| MarkdownToc.FindHeadings | src/claude_clis/tools/doc2md/markdown_writer.py:40 | every heading found has level 1 to 6 and a non-empty single-line title |
| MarkdownToc.FirstTitleFrom | src/claude_clis/tools/doc2md/markdown_writer.py:60-62 | the first "# " heading, if any, ends at a line end or the text's end |
| MarkdownToc.DropPunctuation | src/claude_clis/tools/doc2md/markdown_writer.py:52 | only word characters, whitespace and '-' remain, and a title made only of those is untouched |
| MarkdownToc.DashRuns | src/claude_clis/tools/doc2md/markdown_writer.py:53 | no whitespace remains, every other character comes from the title or is '-', and a title without whitespace is untouched |
| MarkdownToc.AnchorChars | src/claude_clis/tools/doc2md/markdown_writer.py:52-53 | an anchor holds only lower-case word characters and '-' |
| MarkdownToc.WordTitleAnchor | src/claude_clis/tools/doc2md/markdown_writer.py:52-53 | a title made of word characters is its own anchor, lower-cased |
| MarkdownToc.Deep | src/claude_clis/tools/doc2md/markdown_writer.py:47-49 | the headings of level 2 and deeper, in order; none exactly when every heading is level 1 |
| MarkdownToc.Entries | src/claude_clis/tools/doc2md/markdown_writer.py:47-54 | one entry per deep heading, in order |
| MarkdownToc.UnchangedIff | src/claude_clis/tools/doc2md/markdown_writer.py:42-43 | the text is left alone exactly when fewer than two headings are found or none is of level 2 or deeper (see also src/claude_clis/tools/doc2md/markdown_writer.py:56, src/claude_clis/tools/doc2md/markdown_writer.py:67) |
| MarkdownToc.Insertion | src/claude_clis/tools/doc2md/markdown_writer.py:45-66 | otherwise the block of entries goes, after "\n\n", right where the first "# " heading ends, or in front of the text when there is none; the rest of the text is unchanged |
| MarkdownToc.BlockShape | src/claude_clis/tools/doc2md/markdown_writer.py:45 | the block is "## Table of Contents\n", a blank line, the entries joined with '\n', then "\n\n---\n\n" (see also src/claude_clis/tools/doc2md/markdown_writer.py:57) |
| MarkdownToc.TitleMatch | src/claude_clis/tools/doc2md/markdown_writer.py:40 | in "# a\n## b" the title line matches as a level-1 heading ending at its newline |
| MarkdownToc.SectionMatch | src/claude_clis/tools/doc2md/markdown_writer.py:40 | in "# a\n## b" the second line matches as a level-2 heading ending at the text's end |
| MarkdownToc.TwoHeadingsFound | src/claude_clis/tools/doc2md/markdown_writer.py:40 | both headings of "# a\n## b" are found, and the first "# " heading is the title line (see also src/claude_clis/tools/doc2md/markdown_writer.py:60) |
| MarkdownToc.SectionEntry | src/claude_clis/tools/doc2md/markdown_writer.py:50-54 | a level-2 heading's entry is "- [title](#anchor)" with no indent |
| MarkdownToc.CharAnchor | src/claude_clis/tools/doc2md/markdown_writer.py:52-53 | the anchor of a one-character word title is that character lower-cased |
| MarkdownToc.TwoHeadingsEntries | src/claude_clis/tools/doc2md/markdown_writer.py:47-54 | of a title and a section, only the section gets an entry |
| MarkdownToc.TitleAndSection | src/claude_clis/tools/doc2md/markdown_writer.py:37-67 | for "# a\n## b" the block with the entry for b is inserted after the title line and two newlines (see also tests/tools/doc2md/test_markdown_writer.py:62-94) |
| MarkdownValidate.PipeCount | src/claude_clis/tools/doc2md/markdown_writer.py:187 | no pipe is counted exactly when the line has no '\|' |
| MarkdownValidate.LeadingHashes | src/claude_clis/tools/doc2md/markdown_writer.py:192 | the length of the run of '#' the line starts with |
| MarkdownValidate.Levels | src/claude_clis/tools/doc2md/markdown_writer.py:191-194 | every heading level recorded is between 1 and 6 |
| MarkdownValidate.CloseBracket | src/claude_clis/tools/doc2md/markdown_writer.py:201 | the first ']' from a position, as [^\]]* stops there |
| MarkdownValidate.Blanks | src/claude_clis/tools/doc2md/markdown_writer.py:201 | the length of the whitespace run \s* takes |
| MarkdownValidate.EmptyLinkAt | src/claude_clis/tools/doc2md/markdown_writer.py:201 | an empty-link match starts with '[' and ends with ')' at least four characters on |
| MarkdownValidate.ValidateMarkdown | src/claude_clis/tools/doc2md/markdown_writer.py:175-209 | the method's list is `Issues(content)`: the code-block issue, then table issues by line, then hierarchy skips, then empty links and images |
| MarkdownValidate.IssuesParts | src/claude_clis/tools/doc2md/markdown_writer.py:175-209 | the four groups of checks make up the issue list in that order |
| MarkdownValidate.CheckTables | src/claude_clis/tools/doc2md/markdown_writer.py:185-188 | the numbered-line loop reports `TableIssues`: one message per line with exactly one pipe, in line order (MalformedIff) |
| MarkdownValidate.HeadingLevels | src/claude_clis/tools/doc2md/markdown_writer.py:191-194 | the match loop records one level per line starting with '#', capped at 6 |
| MarkdownValidate.CheckHierarchy | src/claude_clis/tools/doc2md/markdown_writer.py:196-198 | the pair loop reports `HeadingIssues`: one message per adjacent pair whose level rises by more than one (NoSkipIff) |
| MarkdownValidate.MalformedIff | src/claude_clis/tools/doc2md/markdown_writer.py:187 | a line is flagged exactly when it holds exactly one '\|' |
| MarkdownValidate.TableMsgInjective | src/claude_clis/tools/doc2md/markdown_writer.py:188 | different line numbers give different messages |
| MarkdownValidate.TableIssuesIn | src/claude_clis/tools/doc2md/markdown_writer.py:185-188 | "Line i: Possible malformed table" is reported exactly when line i (from 1) is flagged |
| MarkdownValidate.TableIssuesEmpty | src/claude_clis/tools/doc2md/markdown_writer.py:185-188 | no table issue exactly when no line is flagged |
| MarkdownValidate.HeadingIssuesExact | src/claude_clis/tools/doc2md/markdown_writer.py:196-198 | every skip message names a rise of more than one level between neighbours, and every such rise has its message |
| MarkdownValidate.HeadingIssuesHead | src/claude_clis/tools/doc2md/markdown_writer.py:198 | every hierarchy message starts with 'H' |
| MarkdownValidate.SkipMsgHead | src/claude_clis/tools/doc2md/markdown_writer.py:198 | a hierarchy message starts with 'H' |
| MarkdownValidate.TableMsgHead | src/claude_clis/tools/doc2md/markdown_writer.py:188 | a table message starts with 'L' |
| MarkdownValidate.LinkIssuesHead | src/claude_clis/tools/doc2md/markdown_writer.py:203 | the link and image messages start with 'E' (see also src/claude_clis/tools/doc2md/markdown_writer.py:207) |
| MarkdownValidate.NoSkipIff | src/claude_clis/tools/doc2md/markdown_writer.py:196-198 | there is no skip issue exactly when no level rises by more than one; decreases are never flagged |
| MarkdownValidate.TableFlagged | src/claude_clis/tools/doc2md/markdown_writer.py:185-188 | line i is reported as a malformed table exactly when it holds a single '\|' (see also tests/tools/doc2md/test_markdown_writer.py:116-156) |
| MarkdownValidate.TableMsgElsewhere | src/claude_clis/tools/doc2md/markdown_writer.py:180-207 | a table message comes from no other check |
| MarkdownValidate.CleanIff | src/claude_clis/tools/doc2md/markdown_writer.py:175-209 | no issue exactly when the ``` count is even, no line holds a single '\|', no heading skips a level and there are no empty links or images |
| MarkdownValidate.ImageIsAlsoLink | src/claude_clis/tools/doc2md/markdown_writer.py:201-207 | an empty image ![t]() counts as one empty link and one empty image, reported in that order |
| MarkdownWriter.MetaLines | src/claude_clis/tools/doc2md/markdown_writer.py:133-137 | one frontmatter line per metadata entry, in insertion order |
| MarkdownWriter.FrontmatterLayout | src/claude_clis/tools/doc2md/markdown_writer.py:127-141 | an empty mapping leaves the text unchanged; otherwise "---\n", the lines joined with '\n', "\n---\n" and then the text (see also tests/tools/doc2md/test_markdown_writer.py:97-113) |
| MarkdownWriter.FrontmatterLines | src/claude_clis/tools/doc2md/markdown_writer.py:138-141 | read back line by line, the text is the line right after the closing "---": no blank line separates them |
| MarkdownWriter.QuotedValue | src/claude_clis/tools/doc2md/markdown_writer.py:134-135 | a string value is written verbatim between double quotes after "key: " |
| MarkdownWriter.FrontmatterFirst | src/claude_clis/tools/doc2md/markdown_writer.py:156-166 | the frontmatter is applied last: whatever else is enabled it opens the written text, and the enhanced body ends it |
| MarkdownWriter.CleanOnlyEnding | src/claude_clis/tools/doc2md/markdown_writer.py:156-157 | with cleaning only, the written text ends in exactly one newline |
| MarkdownWriter.WriteMarkdown | src/claude_clis/tools/doc2md/markdown_writer.py:143-173 | the file is written once with clean, then table reflow, then the table of contents, then the frontmatter, each only when enabled; a failed open changes nothing (see also tests/tools/doc2md/test_markdown_writer.py:188-233) |
| PdfReader.Readable | src/claude_clis/tools/doc2md/readers/pdf.py:52-56 | the pages kept are among those read |
| PdfReader.ReadableExact | src/claude_clis/tools/doc2md/readers/pdf.py:52-57 | exactly the non-blank pages are kept, in increasing page order |
| PdfReader.ReadableNonBlank | src/claude_clis/tools/doc2md/readers/pdf.py:56 | every kept page has non-whitespace text |
| PdfReader.ReadableIncreasing | src/claude_clis/tools/doc2md/readers/pdf.py:52 | kept pages are in page order |
| PdfReader.ReadableComplete | src/claude_clis/tools/doc2md/readers/pdf.py:56-57 | every non-blank page is kept |
| PdfReader.BlocksNumbered | src/claude_clis/tools/doc2md/readers/pdf.py:52-57 | one block per kept page, "## Page {n+1}\n\n" followed by its unstripped text, numbered by its original index, so blank pages leave gaps |
| PdfReader.ExtractWithPyMuPdf | src/claude_clis/tools/doc2md/readers/pdf.py:47-64 | the page loop gives the blocks joined with "\n\n", or "No readable text found in PDF" when no block was made |
| PdfReader.NoTextIff | src/claude_clis/tools/doc2md/readers/pdf.py:61-62 | the fallback fails for want of text exactly when every page is blank |
| PdfReader.ReadPdf | src/claude_clis/tools/doc2md/readers/pdf.py:24-45 | a missing file and a non-.pdf suffix (any case) fail before extraction with their messages; the primary result is used when it succeeds; the fallback runs only when it fails, and a double failure reports both messages |
| PdfReader.IsPdfReadable | src/claude_clis/tools/doc2md/readers/pdf.py:90-109 | a readable file opened, needs no password and has a page |
| PdfReader.PdfReadableIff | src/claude_clis/tools/doc2md/readers/pdf.py:90-109 | readable exactly when it opens, needs no password, has pages and a non-blank first page |
| PdfReader.ReadableExtracts | src/claude_clis/tools/doc2md/readers/pdf.py:90-109 | a file judged readable is one the fallback extracts, starting with the block of page 1 (see also src/claude_clis/tools/doc2md/readers/pdf.py:47-64) |
| WordReader.FormatRunMarkers | src/claude_clis/tools/doc2md/readers/word.py:99-104 | a run's text sits between equal runs of '*': three for bold and italic, two for bold, one for italic, none otherwise |
| WordReader.FormatRuns | src/claude_clis/tools/doc2md/readers/word.py:89-108 | the run loop skips empty runs and concatenates the formatted rest in order |
| WordReader.PlainRuns | src/claude_clis/tools/doc2md/readers/word.py:93-108 | without emphasis the runs come out as their texts run together |
| WordReader.Level | src/claude_clis/tools/doc2md/readers/word.py:70-83 | the heading level a lowercased style name selects, at most 6, with "heading 1" or "title" tested first |
| WordReader.HeadingParagraph | src/claude_clis/tools/doc2md/readers/word.py:72-83 | a non-blank paragraph of style "Heading k", 1 <= k <= 6 in any case, becomes k '#', a space and its stripped text |
| WordReader.HeadingOfLevel | src/claude_clis/tools/doc2md/readers/word.py:70-83 | a non-blank paragraph whose style gives heading level k > 0 becomes k '#', a space and its stripped text |
| WordReader.HeadingLevel | src/claude_clis/tools/doc2md/readers/word.py:72-83 | the style "heading k" selects level k |
| WordReader.NoTitle | src/claude_clis/tools/doc2md/readers/word.py:72 | no heading style name contains "title" |
| WordReader.SubtitleIsTopLevel | src/claude_clis/tools/doc2md/readers/word.py:72-73 | "Subtitle" contains "title", so a subtitle becomes "# " and its stripped text |
| WordReader.CellText | src/claude_clis/tools/doc2md/readers/word.py:120 | a cell's text is stripped and has no newline, each inner '\n' having become one space |
| WordReader.Data | src/claude_clis/tools/doc2md/readers/word.py:116-122 | one cleaned cell list per row, each with that row's cell count |
| WordReader.Fit | src/claude_clis/tools/doc2md/readers/word.py:136-140 | a data row is padded with "" or cut to exactly the header's cell count |
| WordReader.RuleRow | src/claude_clis/tools/doc2md/readers/word.py:133 | one "---" per header cell |
| WordReader.TableLines | src/claude_clis/tools/doc2md/readers/word.py:128-142 | one line per row plus the rule line |
| WordReader.TableMarkdownShape | src/claude_clis/tools/doc2md/readers/word.py:110-142 | no rows gives ""; otherwise the header line, the rule with one "---" per header cell, then each data row fitted to the header, joined with '\n' |
| WordReader.ProcessTable | src/claude_clis/tools/doc2md/readers/word.py:110-142 | the table loops give `TableMarkdown(rows)`, described by TableMarkdownShape and TableCells |
| WordReader.CleanRows | src/claude_clis/tools/doc2md/readers/word.py:116-122 | the row loop cleans every row |
| WordReader.CleanCells | src/claude_clis/tools/doc2md/readers/word.py:118-121 | the cell loop cleans every cell of the row, keeping their count |
| WordReader.PadRow | src/claude_clis/tools/doc2md/readers/word.py:138-140 | the padding loop gives a row whose first header-count cells are the fitted row |
| WordReader.TableCells | src/claude_clis/tools/doc2md/readers/word.py:120 | every emitted data cell is on one line, is the cleaned cell when the row has it, and "" otherwise (see also src/claude_clis/tools/doc2md/readers/word.py:136-140) |
| WordReader.Parts | src/claude_clis/tools/doc2md/readers/word.py:49-59 | the parts emitted are all non-empty |
| WordReader.PartsAppend | src/claude_clis/tools/doc2md/readers/word.py:49-61 | parts of consecutive stretches of the body come out one after the other, keeping document order across paragraphs and tables |
| WordReader.BlankParagraphVanishes | src/claude_clis/tools/doc2md/readers/word.py:53-54 | a paragraph whose stripped text is empty leaves no trace in the output (see also src/claude_clis/tools/doc2md/readers/word.py:65-67) |
| WordReader.ExtractContent | src/claude_clis/tools/doc2md/readers/word.py:45-61 | the body loop joins the non-empty parts with "\n\n" |
| WordReader.ReadDocx | src/claude_clis/tools/doc2md/readers/word.py:28-43 | a missing file and a suffix other than .docx or .doc (any case) fail with their messages; a parse failure is wrapped as "Failed to read Word document: …"; success exactly when all guards pass and the parse succeeds |
| Processor.MetadataShape | src/claude_clis/tools/doc2md/processor.py:255-267 | the metadata comment opens with "<!-- ", closes with "-->", and carries the provider, the style and the original file name each on a settings line of its own |
| Processor.ProviderName | src/claude_clis/tools/doc2md/processor.py:91 | the provider named in the comment is never empty: the given non-empty provider, else "default" (see also src/claude_clis/tools/doc2md/processor.py:115) |
| Processor.Run | src/claude_clis/tools/doc2md/processor.py:205-223 | after n batch files every file was counted exactly once, as a success or as a failure |
| Processor.Picked | src/claude_clis/tools/doc2md/processor.py:217-221 | the indexes of the successful files all lie among the files converted so far |
| Processor.SuccessesInFileOrder | src/claude_clis/tools/doc2md/processor.py:205-221 | when each success reports its output path, the list of successes is the output paths of the succeeding files, in strictly increasing file order |
| Processor.Doc2mdProcessor.constructor | src/claude_clis/tools/doc2md/processor.py:20-36 | the processor keeps the readers that loaded and None for a reader that failed to load |
| Processor.Doc2mdProcessor.Formats | src/claude_clis/tools/doc2md/processor.py:38-46 | the supported formats always end with ".txt", ".md" |
| Processor.Doc2mdProcessor.FormatsMembers | src/claude_clis/tools/doc2md/processor.py:38-46 | a suffix is supported exactly when it is ".pdf" with the PDF reader loaded, ".docx" or ".doc" with the Word reader loaded, or ".txt" or ".md" |
| Processor.Doc2mdProcessor.GetSupportedFormats | src/claude_clis/tools/doc2md/processor.py:38-46 | the extends build exactly the supported format list |
| Processor.Doc2mdProcessor.SupportedHasName | src/claude_clis/tools/doc2md/processor.py:48-51 | a path of a supported format has a non-empty name, so with_suffix('.md') cannot raise on it (see also src/claude_clis/tools/doc2md/processor.py:80) |
| Processor.Doc2mdProcessor.FormatCheckAgrees | src/claude_clis/tools/doc2md/processor.py:48-51 | with both readers loaded, the format check agrees with the general document check of the utilities |
| Processor.Doc2mdProcessor.OutputPathAgrees | src/claude_clis/tools/doc2md/processor.py:76-80 | the output path is the one the utilities' output-path helper gives for the extension ".md" |
| Processor.Doc2mdProcessor.ExtractKnownOnly | src/claude_clis/tools/doc2md/processor.py:234-253 | extraction succeeds only on the five suffixes, and any other suffix fails with "Unsupported file format: " and the suffix |
| Processor.Doc2mdProcessor.SupportedReachesReader | src/claude_clis/tools/doc2md/processor.py:234-253 | after the format check the dispatch reaches a reader that loaded, and a text or Markdown file is read as it is |
| Processor.Doc2mdProcessor.OutputPath | src/claude_clis/tools/doc2md/processor.py:76-80 | a non-empty given output is used; otherwise the input path, in the same directory and with the same stem, now with the suffix ".md" |
| Processor.Doc2mdProcessor.Planned | src/claude_clis/tools/doc2md/processor.py:64-80 | a missing input fails with "Input file not found: "; an unsupported one fails with its suffix and the supported list; a success writes to the output path |
| Processor.Doc2mdProcessor.PlannedPipeline | src/claude_clis/tools/doc2md/processor.py:94-137 | past the guards, the conversion fails exactly when extraction fails, the text is blank or conversion fails; every such failure starts with "Conversion failed: "; blank text gives the no-content message; a success is the metadata, a blank line and the converted text |
| Processor.Doc2mdProcessor.Convert | src/claude_clis/tools/doc2md/processor.py:53-137 | the result succeeds exactly when the plan succeeds and the output opens for writing; a success writes the whole text once to the output path; a failure leaves the files as they were |
| Processor.Doc2mdProcessor.ConvertFile | src/claude_clis/tools/doc2md/processor.py:53-137 | the method's result and final files are those of the conversion function; directories and unwritable paths are unchanged |
| Processor.Doc2mdProcessor.Selected | src/claude_clis/tools/doc2md/processor.py:161-164 | the selection is no longer than the matches |
| Processor.Doc2mdProcessor.SelectedMembers | src/claude_clis/tools/doc2md/processor.py:161-164 | a path is selected exactly when it is a match, a file, and of a supported format |
| Processor.Doc2mdProcessor.SelectFiles | src/claude_clis/tools/doc2md/processor.py:161-164 | the selection loop keeps exactly the supported files among the matches, in order |
| Processor.Doc2mdProcessor.SelectedStep | src/claude_clis/tools/doc2md/processor.py:162-164 | each further match adds itself alone, and only when it is a file of a supported format |
| Processor.Doc2mdProcessor.BatchOutputCollides | src/claude_clis/tools/doc2md/processor.py:191 | two batch inputs get the same output file exactly when their stems agree, wherever they sit under the input directory |
| Processor.Doc2mdProcessor.BatchDir | src/claude_clis/tools/doc2md/processor.py:173-177 | the given non-empty directory, else "markdown" inside the input directory |
| Processor.Doc2mdProcessor.ConvertReturnsGivenPath | src/claude_clis/tools/doc2md/processor.py:77-78 | a conversion to a given non-empty path that succeeds returns that path (see also src/claude_clis/tools/doc2md/processor.py:130) |
| Processor.Doc2mdProcessor.BatchStepOutput | src/claude_clis/tools/doc2md/processor.py:188-202 | every batch conversion that succeeds reports its flat output path |
| Processor.Doc2mdProcessor.BatchStepOne | src/claude_clis/tools/doc2md/processor.py:191-200 | one batch conversion that succeeds reports its flat output path |
| Processor.Doc2mdProcessor.BatchStepIs | src/claude_clis/tools/doc2md/processor.py:188-202 | a batch conversion is the single-file conversion to the output directory joined with the stem plus ".md" |
| Processor.Doc2mdProcessor.BatchConvert | src/claude_clis/tools/doc2md/processor.py:139-232 | a missing input directory, a non-directory and an empty selection each fail with their messages and change nothing; otherwise the successes, the failure count and the files are those of converting the selected files in order |
| Processor.Doc2mdProcessor.ConvertEach | src/claude_clis/tools/doc2md/processor.py:205-223 | the loop's successes, failure count and files are those of converting each file in turn |
| Utils.ReplaceForbidden | src/claude_clis/shared/utils.py:79 | the substitution keeps the length, leaves no forbidden character, keeps every other character and puts '_' for each forbidden one |
| Utils.SanitizeNoForbidden | src/claude_clis/shared/utils.py:78-81 | a sanitised name holds none of < > : " / \ \| ? * |
| Utils.SanitizeShape | src/claude_clis/shared/utils.py:78-81 | the result is the stripped substitution cut to at most 255 characters, and it does not start with a dot or a space |
| Utils.SanitizeEmptyIff | src/claude_clis/shared/utils.py:78-81 | the result is empty exactly when the name is made only of dots and spaces |
| Utils.ForbiddenNotStripped | src/claude_clis/shared/utils.py:79-80 | no forbidden character is one of those stripped afterwards |
| Utils.SafeNameUnchanged | src/claude_clis/shared/utils.py:78-81 | a name with no forbidden character, no dot or space at either end and at most 255 characters is returned as it is |
| Utils.SanitizeTwiceDiffers | src/claude_clis/shared/utils.py:80-81 | when the cut leaves a dot or a space as the 255th character, sanitising twice differs from sanitising once |
| Utils.SanitizeNotIdempotent | src/claude_clis/shared/utils.py:78-81 | some name sanitised twice differs from the same name sanitised once |
| Utils.FileExtension | src/claude_clis/shared/utils.py:90-91 | the extension is empty or a dot and at least one more character, with no upper-case letter |
| Utils.ValidateOutputPath | src/claude_clis/shared/utils.py:199-204 | a non-empty given path is returned as it is; otherwise the input's suffix is replaced, which fails exactly where with_suffix raises |
| Utils.DefaultOutputBesideInput | src/claude_clis/shared/utils.py:199-204 | with no output given, the result keeps the input's directory and stem and takes the new extension |
| Utils.RelativeParts | src/claude_clis/shared/utils.py:212 | relative_to succeeds exactly when the base's parts are a prefix of the path's parts, and the base's parts followed by the result are the path's parts |
| Utils.RelativeRoundTrip | src/claude_clis/shared/utils.py:207-214 | a path not under the base comes back as it is, the base itself gives ".", and otherwise the base's parts followed by the result's parts are the path's parts |
| Utils.PartsOfPlainJoin | src/claude_clis/shared/utils.py:212 | joining plain parts with separators and splitting the result again gives back those parts |
| Utils.BackupTag | src/claude_clis/shared/utils.py:185-189 | each candidate after the first adds a dot and its counter |
| Utils.BackupTagInjective | src/claude_clis/shared/utils.py:185-189 | different counters give different candidates |
| Utils.CandidatesCounted | src/claude_clis/shared/utils.py:188-190 | n candidates that all exist are n different existing paths, so the search ends |
| Utils.FreeFrom | src/claude_clis/shared/utils.py:188-190 | the search stops at a candidate that does not exist, and every candidate before it exists |
| Utils.BackupNameFirstFree | src/claude_clis/shared/utils.py:185-190 | the backup name does not exist yet, every earlier candidate does, and a free plain name is taken as it is |
| Utils.WithSuffixAppends | src/claude_clis/shared/utils.py:185 | replacing the file's suffix by that suffix plus more text appends that text to the path (see also src/claude_clis/shared/utils.py:189) |
| Utils.TaggedValid | src/claude_clis/shared/utils.py:189 | the tagged candidates are valid suffixes whenever the first one is |
| Utils.BackupFile | src/claude_clis/shared/utils.py:183-196 | an invalid suffix fails as with_suffix does; a missing file fails with "File … does not exist"; otherwise the file, or the directory with everything inside it, is renamed to the first free candidate, which is returned |
| Utils.FindBackupName | src/claude_clis/shared/utils.py:185-190 | the search loop finds the first candidate that does not exist |
| Utils.LevelNamesDistinct | src/claude_clis/shared/utils.py:246-254 | the five level names are different, so at most one branch of log prints |
| Utils.CLIContext.constructor | src/claude_clis/shared/utils.py:234-237 | all three flags start false and nothing has been printed |
| Utils.CLIContext.Rendered | src/claude_clis/shared/utils.py:239-255 | a line is printed exactly when not quiet and the level is info, success, warning or error, or it is debug in verbose mode |
| Utils.CLIContext.RenderedCarriesMessage | src/claude_clis/shared/utils.py:22-35 | every printed line carries the message (see also src/claude_clis/shared/utils.py:246-255) |
| Utils.CLIContext.Show | src/claude_clis/shared/utils.py:22-35 | printing appends one line and changes no flag |
| Utils.CLIContext.Log | src/claude_clis/shared/utils.py:239-255 | log appends the rendered line, if there is one, and changes nothing else |
| Utils.CLIContext.Debug | src/claude_clis/shared/utils.py:257-258 | a debug message is printed, dimmed, only when not quiet and verbose (see also src/claude_clis/shared/utils.py:255) |
| Utils.CLIContext.Info | src/claude_clis/shared/utils.py:260-261 | an info message is printed with its badge unless quiet (see also src/claude_clis/shared/utils.py:22-23) |
| Utils.CLIContext.Success | src/claude_clis/shared/utils.py:263-264 | a success message is printed with its badge unless quiet (see also src/claude_clis/shared/utils.py:26-27) |
| Utils.CLIContext.Warning | src/claude_clis/shared/utils.py:266-267 | a warning is printed with its badge unless quiet (see also src/claude_clis/shared/utils.py:30-31) |
| Utils.CLIContext.Error | src/claude_clis/shared/utils.py:269-270 | an error is printed with its badge unless quiet, so quiet mode suppresses errors too (see also src/claude_clis/shared/utils.py:34-35) |
| ClaudeCode.CreateClaudeCommand | src/claude_clis/commands/claude_code.py:30-45 | the record keeps the name, description and command, has version "1.0.0", runs in the given non-empty directory or else ".", and has the given tags or else none |
| ClaudeCode.RebuildUnchanged | src/claude_clis/commands/claude_code.py:42-43 | the defaults never replace a value: building a record again from its own fields gives the same record |
| ClaudeCode.EntriesShape | src/claude_clis/commands/claude_code.py:103-144 | four commands, with the files {name}-doc2md, -doc2md-batch, -config and -help; each named by its file after a '/', run in the working directory (or "." for an empty one), version "1.0.0" |
| ClaudeCode.EntriesDistinct | src/claude_clis/commands/claude_code.py:103-144 | the four file names are pairwise different, and so are the four command names |
| ClaudeCode.CommandFileInjective | src/claude_clis/commands/claude_code.py:150 | different file names give different command files in the commands directory |
| ClaudeCode.Registering | src/claude_clis/commands/claude_code.py:149-163 | after n entries, each entry has been put in at most one of the two lists |
| ClaudeCode.RegisteringFrame | src/claude_clis/commands/claude_code.py:149-163 | the loop changes no file other than the command files of the entries it has handled |
| ClaudeCode.RegisteringNamesSoFar | src/claude_clis/commands/claude_code.py:149-163 | the lists name only entries already handled |
| ClaudeCode.RegisteringExactAt | src/claude_clis/commands/claude_code.py:149-163 | with distinct entries, an entry is skipped exactly when its file existed and the run is not forced, and registered exactly when it was not skipped and its file opened for writing; an entry whose write failed is in neither list |
| ClaudeCode.ForcedSkipsNothing | src/claude_clis/commands/claude_code.py:152-154 | with --force nothing is skipped |
| ClaudeCode.Register | src/claude_clis/commands/claude_code.py:75-163 | without Claude Code's directory, or without claude-clis on PATH, it aborts with its message and writes nothing; otherwise the lists and the files are those of the register loop over the four commands, run in the given directory or the current one |
| ClaudeCode.RegisterEach | src/claude_clis/commands/claude_code.py:149-163 | the loop's lists and files are those of handling each entry in turn |
| ClaudeCode.RegisterPartition | src/claude_clis/commands/claude_code.py:146-163 | for each of the four commands: skipped exactly when its file exists and the run is not forced, registered exactly when not skipped and its file can be written |
| ClaudeCode.ToolFileMatches | src/claude_clis/commands/claude_code.py:105-150 | the file of a tool name starting with a dash matches the glob {prefix}-*.json (see also src/claude_clis/commands/claude_code.py:231-232) |
| ClaudeCode.UnregisterFindsRegistered | src/claude_clis/commands/claude_code.py:103-150 | every command file register writes matches unregister's glob for the same prefix, and for the default prefix the --all glob as well (see also src/claude_clis/commands/claude_code.py:231-232) |
| ClaudeCode.Unregistering | src/claude_clis/commands/claude_code.py:238-249 | after n listed files each has been counted once, as removed or as failed; no file has been added and every file left keeps its text |
| ClaudeCode.UnregisteringFrame | src/claude_clis/commands/claude_code.py:238-249 | a file that is not listed keeps its text |
| ClaudeCode.UnregisteringExactAt | src/claude_clis/commands/claude_code.py:238-249 | with each file listed once, a listed file is gone afterwards exactly when it was missing to begin with or its JSON loaded, whether or not that JSON is an object (the file is unlinked before `.get` fails) |
| ClaudeCode.RemovedExactly | src/claude_clis/commands/claude_code.py:231-249 | when the listing is exactly what the glob selects, a file is gone afterwards exactly when the glob selected it and its JSON loads |
| ClaudeCode.Unregister | src/claude_clis/commands/claude_code.py:222-249 | a commands path that does not exist and an empty listing change nothing, the latter reporting the pattern; otherwise the removed names, the failures and the files are those of the unregister loop; in every case exactly the selected files whose JSON loads are deleted and every other file keeps its text |
| ClaudeCode.UnregisterEach | src/claude_clis/commands/claude_code.py:238-249 | the loop's removed names, failures and files are those of handling each listed file in turn |
| Paths.Suffix | src/claude_clis/shared/utils.py:91 | the suffix is empty or a dot and at least one more character with no further dot, and ends the path's name |
| Paths.Stem | src/claude_clis/tools/doc2md/processor.py:191 | the name is the stem followed by the suffix, and a non-empty name has a non-empty stem |
| Paths.WithSuffix | src/claude_clis/tools/doc2md/processor.py:80 | with_suffix succeeds exactly for a valid suffix on a path with a name, and gives the directory, the stem and the new suffix |
| Paths.WithSuffixSetsSuffix | src/claude_clis/tools/doc2md/processor.py:80 | replacing the suffix by a plain one keeps the directory and the stem and makes it the path's suffix |
| Paths.JoinPathInjective | src/claude_clis/commands/claude_code.py:150 | joining one directory with two different names gives two different paths |
| Files.OpenError | src/claude_clis/tools/doc2md/processor.py:119 | opening a path for writing fails exactly when it is a directory or a path that refuses writes |
| Files.Store.Write | src/claude_clis/tools/doc2md/processor.py:119-120 | a write either replaces that one file's whole text or fails with the open error and changes nothing |
| Files.Store.Remove | src/claude_clis/commands/claude_code.py:245 | unlink deletes that one file and nothing else |
| Files.Store.Rename | src/claude_clis/shared/utils.py:193 | in a store that is a tree, rename onto a path where nothing is stored moves every file and directory at or inside the source to the same place under the target, and changes nothing else |
| Files.MoveFiles | src/claude_clis/shared/utils.py:193 | after the move, each file's text is at its moved path, and every path holding a text is the moved path of some file |
| Files.MoveDirs | src/claude_clis/shared/utils.py:193 | after the move, the directories are exactly the moved paths of the directories before it |
| Files.MovedInjective | src/claude_clis/shared/utils.py:193 | renaming onto a vacant target never merges two paths |
| Files.VacantTarget | src/claude_clis/shared/utils.py:193 | in a tree, a path where nothing is stored has nothing stored inside it either |
| Files.RenameMovesTree | src/claude_clis/shared/utils.py:193 | paths outside the source keep their place and text, paths inside it reappear at the same place inside the target, and nothing is left at or inside the source unless it is also inside the target |
| Files.RenameFile | src/claude_clis/shared/utils.py:193 | renaming a file moves that one file's text and leaves every other file and every directory as it was |

## Left out

- Console output, `rich` tables and panels, click command wiring (`tools/doc2md/cli.py`, the rest of `main.py`): user interface only.
- `time.time`, `time.strftime`, `stat` sizes, `format_file_size`, `format_duration`: clock and float formatting. The conversion date is a parameter.
- Directory creation (`mkdir(parents=True, exist_ok=True)`). The store's directories only answer `exists` and `is_dir`.
- `rglob`, `glob` and `shutil.which` are given as their results: a list of matches in the order they are listed, and an optional path.
- `find_files`, `read_text_file`'s encoding fallbacks and `write_text_file`. They are byte decoding or plain file-system wrappers, and no modelled operation calls them.
- The PDF and Word libraries, `get_pdf_info` and `get_document_info`. The model starts from page texts and paragraph, run and table values.
- pydantic_ai agents, HTTP and the network. Completion is an opaque function, and the built model is a record of provider, model name, endpoint, key and timeout.
- YAML parsing and dumping. The config file is held as the parsed value tree, and `save_config` stores the cached configuration in it as `model_dump` gives it; lists and other YAML values outside that tree are not modelled.
- The environment source of `Config` (BaseSettings with env_prefix CLAUDE_CLIS_ and nested delimiter "_", `config.py:55-57`). Settings.Build sees only the file, so Settings.EmptyFileGivesDefaults, Settings.FreshConfigValues and Settings.SaveLoadRoundTrip hold only while no CLAUDE_CLIS_ variable is set. The separate read of CLAUDE_CLIS_AI_PROVIDER in `get_ai_provider` is modelled, as a parameter.
- Settings.Coerce: only the common lax forms are modelled. Surrounding whitespace and `_` separators in numeric strings, exponent and `inf`/`nan` forms, and the normalisation of a float's text (Python prints `float("007.5")` as 7.5) are not; a float keeps its text as written, and an integer gains ".0".
- Settings.Validate: the top-level check for unknown keys is made before the fields are validated, and a record stops at its first invalid field. pydantic collects all errors into one ValidationError; the model keeps only one.
- Error texts are stand-ins: a validation failure carries pydantic's error type (`int_parsing`, `literal_error`, `extra_forbidden`, ...), and a failed get or set carries "AttributeError: " + key or "ValueError: object has no field ..." without the class names Python prints.
- The semaphore bound on concurrent conversions: concurrency is not modelled.
- Unicode behaviour of `\s`, `\w`, `str.lower()` and `str.strip()` beyond ASCII.
- Chunking.ChunkContent: requires a chunk size of at least 1 when the content is longer than the size, because the loop in `chunk_content` never advances otherwise. Chunking.NoProgressWithoutPositiveSize states that non-advance.
- Processor.Doc2mdProcessor.ConvertFile: requires a chunk size of at least 1 for the same reason, since the conversion runs the chunking loop.
- Processor.Doc2mdProcessor.BatchConvert: requires a chunk size of at least 1 for the same reason.
- Files.Store.Rename: renaming a directory into its own subtree, which POSIX rejects with EINVAL, is not an error in the model; the store must be a tree (`Files.Tree`), which `Write` does not maintain because it does not model the missing-parent error of `open`.
- Utils.BackupFile: the text of the ValueError `with_suffix` raises is a stand-in (`SuffixError`), not Python's exact message.
- ClaudeCode.Unregister: a failing `unlink` after a successful read (a permission error) is not modelled; a listed file that loads is always deleted.
- ClaudeCode.Unregister: the glob itself is a parameter: the listing `found` must hold exactly the entries of the commands directory the glob selects, once each, and the order it comes in (the directory's order) is left open.
- ClaudeCode.Unregister: a "name" entry that is not a string makes the later `"\n".join` raise outside the `try`; the model takes every "name" to be a string.
- Paths: paths are taken in pathlib's normal form. Normalisation of doubled separators, trailing separators and `.` components is not modelled.

## Behaviour worth knowing

Verifying the model showed behaviours of the code that differ from what its comments, tests or documentation suggest. In each case the model follows the code.

- `clean_markdown` is not idempotent, and it can produce `"\n\n\n"`. It inserts a newline before every line-start `#`, even when a blank line already precedes it (MarkdownClean.CleanNotIdempotent, MarkdownClean.HeadingGapAfterBlank). The assertion at `tests/tools/doc2md/test_markdown_writer.py:40` therefore does not hold for its own input.
- The frontmatter written by `add_metadata` is followed by a single newline, not a blank line (MarkdownWriter.FrontmatterLayout).
- `sanitize_filename` is not idempotent when the 255-character cut leaves a trailing dot or space (Utils.SanitizeNotIdempotent).
- The chunk-break search never looks past the nominal end of a chunk. The paragraph search looks back at most 200 characters and the sentence search at most 100 (Chunking.NextCut).
- Quiet mode suppresses error messages too, although the `--quiet` option's help text in `main.py:37` says errors are still shown (Utils.CLIContext.Error).
- An unknown non-empty provider name raises ValueError in the configuration, so `test_provider` raises instead of answering false. The empty name, however, does reach the client's own "Unknown AI provider" AIClientError branch (Client.UnknownNameRaises, Client.EmptyNameReachesClientError).
- `config set` stores the command line's string without validation, and only the next load validates it. `config set ai.provider <other name>` therefore succeeds and is saved, but every later load of the file fails (Settings.UnknownProviderFromCli). A number or a yes/no word given for an int or bool field is converted on that load (Settings.ChunkSizeFromCli, Settings.PreserveFormattingFromCli).
- Batch output is flat: two inputs with the same stem in different sub-directories write to the same file (Processor.Doc2mdProcessor.BatchOutputCollides).
- In `word.py`, the `if not table_data` branch after the row loop cannot be taken for a table that has rows, so an empty table is the only way to get "".
