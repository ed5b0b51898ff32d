# HEMTT macro table and diagnostic codes, in Dafny

This project models two parts of HEMTT, the build tool for Arma 3 mods.

The first is the preprocessor's scoped macro table, `Defines`. It holds a global map of macro bindings and a stack of call-local scopes, one for each function-like macro being expanded. It also holds a `u16` counter that drives the `__COUNTER__` built-in. The model keeps the source's form: a class whose mutators (`Insert`, `Remove`, `Push`, `Pop`, `GetWithGen`) change its fields and whose queries (`ContainsKey`, `GetReadonly`) are functions reading them. The `similar_*` suggestion searches are loop methods proved against a relational specification of the ranking, `IsRanking`.

The second is the non-rendering part of five diagnostic codes:

- PE9: a function-like macro called with the wrong number of arguments.
- PE14: tokens after an include path.
- PW2: a config file named in the wrong case.
- CE7: a class whose parent is missing.
- CW2: a magazine well that names an undefined magazine.

For each code the model covers the identifier, the message, the label text, the help text, the fields of the report (kind, anchor, labels, help) and the CI annotations. A union type `Codes.Code` states that every code's severity is fixed by its identifier and that its annotations carry that severity.

Modules:

- `Text`: the standard-library string operations the codes use (integer formatting, trimming, lower-casing, newline escaping, joining, substring search).
- `Strsim`: the Levenshtein distance.
- `Reporting`: tokens, positions, reports, annotations, and the preprocessed output with its mappings.
- `ConfigSyntax`: config identifiers and classes.
- `MacroTable`: `Defines` and the ranking.
- `PE9`, `PE14`, `PW2`, `CE7`, `CW2`: one module per code.
- `Codes`: the union of the five codes.

## Model

| member | source | states |
|---|---|---|
| `MacroTable.IsBuiltin` | libs/preprocessor/src/defines.rs:22-53 | a name is built in exactly when it is one of the 22 reserved names (2 constant, 4 generated, 16 refused); every generated or refused name is built in, and every built-in name starts with `__` |
| `MacroTable.Defines.constructor` | libs/preprocessor/src/defines.rs:13-20 | a new table has an empty global scope, no call scopes and counter 0 |
| `MacroTable.Defines.ContainsKey` | libs/preprocessor/src/defines.rs:55-68 | always true for the four generated built-ins; false for the name of the macro whose call scope is on top, even when it is bound globally; otherwise true exactly when `GetReadonly` finds a binding |
| `MacroTable.Defines.GetReadonly` | libs/preprocessor/src/defines.rs:153-160 | the top call scope's binding when it has one, else the global binding |
| `MacroTable.LowerScopesNotConsulted` | libs/preprocessor/src/defines.rs:153-160 | two tables that agree on the global scope and the top call scope resolve every name alike, so scopes below the top are never consulted |
| `MacroTable.Defines.GetWithGen` | libs/preprocessor/src/defines.rs:70-151 | with a site: `__COUNTER__` returns one digit token holding the old counter and increments it by exactly one; `__COUNTER_RESET__` returns `Void` and sets the counter to 0; `__FILE__` returns the three `FileTokens`; `__LINE__` returns one digit token holding the site's line. Without a site, or for any other name: the recursion guard applied to `GetReadonly`, with the counter unchanged |
| `MacroTable.FileWord` | libs/preprocessor/src/defines.rs:94-119 | the `__FILE__` word ends with the site's path; it is exactly the path when the file has no project, and otherwise starts with the project prefix and a backslash |
| `MacroTable.RecursionGuard` | libs/preprocessor/src/defines.rs:134-151 | the result is `None` exactly when the lookup found nothing or found a function-like macro that is used in the same file on a line within its own definition's lines; otherwise it is the lookup's result unchanged |
| `MacroTable.SelfReferenceIsBlocked` | libs/preprocessor/src/defines.rs:134-148 | when a body token lexed within its definition's lines names a macro that the table resolves to that very definition, the recursion guard turns the lookup into `None` |
| `MacroTable.CounterSequence` | libs/preprocessor/src/defines.rs:79-93 | after a reset, `__COUNTER__` yields 0, 1, 2, and it yields 0 again after the next reset |
| `MacroTable.Defines.Insert` | libs/preprocessor/src/defines.rs:171-181 | writes only the top call scope when one is open, else only the global scope; returns that scope's previous binding; the key then resolves to the new binding, and it is visible unless it names the top call's own macro |
| `MacroTable.Defines.Remove` | libs/preprocessor/src/defines.rs:183-189 | removes the key from only the top call scope when one is open, else from only the global scope; returns what that scope held; the key then resolves to its global binding when a call scope is open, and to nothing otherwise |
| `MacroTable.InsertThenRemove` | libs/preprocessor/src/defines.rs:171-189 | inserting a key the current scope lacks and then removing it restores the table and hands back the inserted binding |
| `MacroTable.Defines.Push` | libs/preprocessor/src/defines.rs:191-193 | appends exactly the new call scope; every argument resolves to its binding; the macro's own name is hidden |
| `MacroTable.Defines.Pop` | libs/preprocessor/src/defines.rs:195-197 | drops only the last call scope, and does nothing when none is open |
| `MacroTable.PushThenPop` | libs/preprocessor/src/defines.rs:191-197 | push followed by pop leaves the stack, the global scope and the counter as they were |
| `MacroTable.ScoreCandidates` | libs/preprocessor/src/defines.rs:208-218 | pairs every candidate with its distance to the search string, once each, in an unspecified order |
| `MacroTable.InsertByDistance` | libs/preprocessor/src/defines.rs:219 | stable insertion: the new entry goes after every entry that is not farther and before every entry that is, and the result stays sorted |
| `MacroTable.SortByDistance` | libs/preprocessor/src/defines.rs:219 | the result is sorted by distance and is a permutation of the input; distinct names stay distinct |
| `MacroTable.Close` | libs/preprocessor/src/defines.rs:220 | the reference filter: the entries within distance 3, in their original order, never more than the input |
| `MacroTable.CloseMembers` | libs/preprocessor/src/defines.rs:220 | the filter keeps exactly the entries within distance 3 |
| `MacroTable.CloseSorted` | libs/preprocessor/src/defines.rs:219-220 | filtering a list sorted by distance leaves it sorted |
| `MacroTable.CloseDistinct` | libs/preprocessor/src/defines.rs:220 | filtering keeps distinct names distinct |
| `MacroTable.RetainClose` | libs/preprocessor/src/defines.rs:220 | the loop yields exactly the reference filter `Close`, so the entries within distance 3 are kept in their relative order; the result is sorted and its names distinct |
| `MacroTable.FirstThreeAreRanking` | libs/preprocessor/src/defines.rs:221-224 | the first three of the sorted close candidates are a ranking |
| `MacroTable.LeftOutComesLater` | libs/preprocessor/src/defines.rs:221-223 | a close candidate missing from the first three of a sorted list comes after them: three were kept, and none is farther |
| `MacroTable.RankBySimilarity` | libs/preprocessor/src/defines.rs:207-245 | the result is a ranking: at most three distinct candidates, each within distance 3, closest first, and no closer candidate left out |
| `MacroTable.ExactMatchRanksFirst` | libs/preprocessor/src/defines.rs:217-219 | in any ranking, a candidate equal to the search string is the first suggestion |
| `MacroTable.FarLengthsNeverSuggested` | libs/preprocessor/src/defines.rs:217-220 | a candidate whose length differs from the search string's by more than 3 is never suggested |
| `MacroTable.Defines.FunctionNames` | libs/preprocessor/src/defines.rs:208-216 | every candidate is a global function-like macro, with exactly `args` parameters when `args` is given |
| `MacroTable.Defines.ValueNames` | libs/preprocessor/src/defines.rs:228-236 | every candidate is a global object-like macro with a value |
| `MacroTable.Defines.SimilarFunction` | libs/preprocessor/src/defines.rs:207-225 | at most three names, all global function-like macros with exactly `args` parameters when `args` is given, ranked by distance |
| `MacroTable.Defines.SimilarValues` | libs/preprocessor/src/defines.rs:227-245 | at most three names, all global object-like macros with a value, ranked by distance |
| `Strsim.LevenshteinZeroIffEqual` | libs/preprocessor/src/defines.rs:217 | the distance is zero exactly when the strings are equal |
| `Strsim.LevenshteinAtLeastLengthGap` | libs/preprocessor/src/defines.rs:217 | the distance is at least the difference of the lengths |
| `Strsim.Levenshtein` | libs/preprocessor/src/defines.rs:217 | the edit distance the ranking is computed with; it never exceeds the longer of the two lengths |
| `Text.Trim` | libs/preprocessor/src/codes/pe9_function_call_argument_count.rs:28 | the trimmed name is a contiguous part of the name with only whitespace cut off either end, and has no whitespace at either end; a name without whitespace at its ends is unchanged |
| `Text.NatToString` | libs/preprocessor/src/codes/pe9_function_call_argument_count.rs:61-73 | a count prints as a non-empty run of decimal digits, with no leading zero unless the count is 0 |
| `Text.DecimalRoundTrip` | libs/preprocessor/src/codes/pe9_function_call_argument_count.rs:61-73 | reading back the printed digits of a count gives the count |
| `PE9.FunctionCallArgumentCount.Ident` | libs/preprocessor/src/codes/pe9_function_call_argument_count.rs:53-55 | a preprocessor error identifier (`PE` prefix) |
| `PE9.FunctionCallArgumentCount.Message` | libs/preprocessor/src/codes/pe9_function_call_argument_count.rs:61-66 | the message shows the expected and the actual count, each in backticks |
| `PE9.FunctionCallArgumentCount.LabelMessage` | libs/preprocessor/src/codes/pe9_function_call_argument_count.rs:68-73 | the label shows the expected and the actual count, each in backticks |
| `PE9.FunctionCallArgumentCount.Help` | libs/preprocessor/src/codes/pe9_function_call_argument_count.rs:75-77 | there is never a help line on the diagnostic itself |
| `PE9.New` | libs/preprocessor/src/codes/pe9_function_call_argument_count.rs:23-49 | for a name that resolves to a function-like macro: keeps the token and both counts; `defined` holds the definer token and the declared parameters; the suggestions are at most three global value macros that rank by similarity to the trimmed name |
| `PE9.CountsRecoverable` | libs/preprocessor/src/codes/pe9_function_call_argument_count.rs:61-73 | the message, and likewise the label text, determine both the expected and the actual count |
| `PE9.FunctionCallArgumentCount.CallLabel` | libs/preprocessor/src/codes/pe9_function_call_argument_count.rs:91-102 | the call label covers the call token and says "1 argument" or "N arguments" |
| `PE9.FunctionCallArgumentCount.DefinedLabel` | libs/preprocessor/src/codes/pe9_function_call_argument_count.rs:103-114 | the definition label covers the defining token and counts the declared parameters with the same pluralisation |
| `Text.Join` | libs/preprocessor/src/codes/pe9_function_call_argument_count.rs:118-122 | joining no parts gives the empty text; otherwise the text starts with the first part and ends with the last |
| `PE9.FunctionCallArgumentCount.ReportGenerate` | libs/preprocessor/src/codes/pe9_function_call_argument_count.rs:79-124 | an error at the call token with the two labels; a "did you mean" help exactly when there are suggestions, naming each of them |
| `PE9.FunctionCallArgumentCount.CiGenerate` | libs/preprocessor/src/codes/pe9_function_call_argument_count.rs:153-159 | exactly one error annotation on the call token |
| `PE14.IncludeUnexpectedSuffix.Ident` | libs/preprocessor/src/codes/pe14_include_unexpected_suffix.rs:13-15 | a preprocessor error identifier (`PE` prefix) |
| `PE14.IncludeUnexpectedSuffix.Message` | libs/preprocessor/src/codes/pe14_include_unexpected_suffix.rs:21-23 | the fixed one-line text "unexpected tokens after include" |
| `PE14.IncludeUnexpectedSuffix.Help` | libs/preprocessor/src/codes/pe14_include_unexpected_suffix.rs:32-34 | there is never a help line |
| `Text.EscapeNewlines` | libs/preprocessor/src/codes/pe14_include_unexpected_suffix.rs:28 | the result never contains a line feed, and text without line feeds is unchanged |
| `Text.EscapeNewlinesConcat` | libs/preprocessor/src/codes/pe14_include_unexpected_suffix.rs:28 | escaping works piece by piece: escaping a concatenation concatenates the escaped pieces |
| `Text.EscapeNewlinesNewline` | libs/preprocessor/src/codes/pe14_include_unexpected_suffix.rs:28 | a line feed becomes a backslash followed by `n` |
| `Text.EscapeNewlinesOther` | libs/preprocessor/src/codes/pe14_include_unexpected_suffix.rs:28 | every character other than a line feed is kept as it is |
| `PE14.IncludeUnexpectedSuffix.LabelMessage` | libs/preprocessor/src/codes/pe14_include_unexpected_suffix.rs:25-30 | the label is the fixed prefix, the token's text with each line feed escaped, and a closing backtick; it never contains a line feed, and for text without line feeds it holds the text unchanged |
| `PE14.TrailingNewlineLabel` | libs/preprocessor/src/codes/pe14_include_unexpected_suffix.rs:25-30 | a token text ending in a line feed is labelled with the rest of the text, escaped, then a visible backslash-n |
| `PE14.NewlineLabel` | libs/preprocessor/src/codes/pe14_include_unexpected_suffix.rs:25-30 | a line-feed token is labelled with a visible backslash-n |
| `PE14.IncludeUnexpectedSuffix.ReportGenerate` | libs/preprocessor/src/codes/pe14_include_unexpected_suffix.rs:36-52 | an error at the token's start whose single label covers exactly the token, with the message "expected end of line", and no help |
| `PE14.IncludeUnexpectedSuffix.CiGenerate` | libs/preprocessor/src/codes/pe14_include_unexpected_suffix.rs:73-79 | exactly one error annotation on the token |
| `PW2.InvalidConfigCase.Ident` | libs/preprocessor/src/codes/pw2_invalid_config_case.rs:16-18 | a preprocessor warning identifier (`PW` prefix) |
| `PW2.InvalidConfigCase.Message` | libs/preprocessor/src/codes/pw2_invalid_config_case.rs:20-25 | the message opens with the file name in backticks |
| `PW2.InvalidConfigCase.LabelMessage` | libs/preprocessor/src/codes/pw2_invalid_config_case.rs:20-32 | the label equals the message for every path |
| `PW2.InvalidConfigCase.Help` | libs/preprocessor/src/codes/pw2_invalid_config_case.rs:34-36 | always present; exactly "Rename to `", the lower-cased path and a closing backtick, so the suggested name has no upper-case letter |
| `Text.ToLowercase` | libs/preprocessor/src/codes/pw2_invalid_config_case.rs:35 | lower-casing keeps the length, turns each ASCII upper-case letter into its own lower-case letter, and changes no other character |
| `Text.ToLowercaseIdempotent` | libs/preprocessor/src/codes/pw2_invalid_config_case.rs:35 | lower-casing the suggested name again changes nothing |
| `PW2.InvalidConfigCase.ReportGenerate` | libs/preprocessor/src/codes/pw2_invalid_config_case.rs:38-46 | always produced (the help it unwraps is always present); opens with "[PW2] Warning: " and contains both the message and the help text |
| `PW2.InvalidConfigCase.CiGenerate` | libs/preprocessor/src/codes/pw2_invalid_config_case.rs:48-54 | exactly one warning annotation on the file, at the zero line and column |
| `CE7.MissingParent.Ident` | libs/config/src/analyze/codes/ce7_missing_parent.rs:19-21 | a config error identifier (`CE` prefix) |
| `CE7.MissingParent.Message` | libs/config/src/analyze/codes/ce7_missing_parent.rs:23-25 | the fixed one-line text "class's parent is not present" |
| `CE7.MissingParent.LabelMessage` | libs/config/src/analyze/codes/ce7_missing_parent.rs:27-29 | the fixed one-line text "not present in config" |
| `CE7.MissingParent.Help` | libs/config/src/analyze/codes/ce7_missing_parent.rs:31-38 | present exactly when the class has a parent, and then it contains `class <parent>;` |
| `CE7.MissingParent.ReportGenerateProcessed` | libs/config/src/analyze/codes/ce7_missing_parent.rs:40-80 | no report exactly when the class has no parent; otherwise an error anchored at the class name's mapping, with one label over the parent's mapped token and the help |
| `CE7.MissingParent.CiGenerateProcessed` | libs/config/src/analyze/codes/ce7_missing_parent.rs:82-92 | exactly one error annotation at the original position of the parent's mapping, in that mapping's source file |
| `CW2.MagwellMissingMagazine.Ident` | libs/config/src/analyze/codes/cw2_magwell_missing_magazine.rs:23-25 | a config warning identifier (`CW` prefix) |
| `CW2.MagwellMissingMagazine.Message` | libs/config/src/analyze/codes/cw2_magwell_missing_magazine.rs:27-29 | the fixed text "magazine defined in CfgMagazineWells was not found in CfgMagazines" |
| `CW2.MagwellMissingMagazine.Help` | libs/config/src/analyze/codes/cw2_magwell_missing_magazine.rs:35-37 | there is never a help line |
| `CW2.MagwellMissingMagazine.LabelMessage` | libs/config/src/analyze/codes/cw2_magwell_missing_magazine.rs:31-33 | the missing magazine's name can be read back from the label |
| `CW2.MagwellMissingMagazine.ReportGenerateProcessed` | libs/config/src/analyze/codes/cw2_magwell_missing_magazine.rs:39-70 | a warning in the array's file, at the original column of the entry's end mapping; one label from the start of the token mapped at the entry's start to the end of the token mapped at its end; no help |
| `CW2.MagwellMissingMagazine.CiGenerateProcessed` | libs/config/src/analyze/codes/cw2_magwell_missing_magazine.rs:73-81 | exactly one warning annotation at the original position of the entry's start mapping, in that mapping's source file |
| `Codes.Code.Severity` | libs/preprocessor/src/codes/pe9_function_call_argument_count.rs:84-85 | each code's severity is the one its identifier announces: `E` for errors, `W` for warnings |
| `Codes.SeverityFixedPerIdent` | libs/preprocessor/src/codes/pw2_invalid_config_case.rs:16-18 | two codes with the same identifier have the same severity |
| `Codes.IdentsDistinct` | libs/config/src/analyze/codes/ce7_missing_parent.rs:19-21 | no two kinds of code share an identifier |
| `Codes.AnnotationsCarrySeverity` | libs/config/src/analyze/codes/cw2_magwell_missing_magazine.rs:73-81 | every code yields exactly one CI annotation, at its own severity |
| `Codes.ReportsCarrySeverity` | libs/config/src/analyze/codes/ce7_missing_parent.rs:57-58 | the reports of PE14, CE7 and CW2 carry the code's severity as their kind |

## Left out

- Rendering through `ariadne`: building, colouring and writing the report are left out because they are a foreign library. Reports are modelled as the record of their kind, anchor, code, message, labels and help. The colour escapes around highlighted names are left out, so label and help texts are compared uncoloured.
- `report_generate` of PE14 writes its rendered text into an output buffer. Only the report record it builds is modelled.
- PW2's header and "Help" colouring: the text is modelled without terminal colour codes.
- `Code::annotation` is not part of this model: its body is not shown. An annotation is modelled as its level, file and position; the message and range fields it fills are left out.
- The editor-protocol diagnostics (`generate_lsp`, `generate_processed_lsp`) are left out because they are behind a feature flag.
- `Processed::mapping` and `Processed::source` are modelled as finite maps inside a `Processed` value. A lookup that the source unwraps becomes a precondition (`CanReport`, `CanAnnotate`).
- `WorkspacePath::filename` and the project prefix are not part of this model. They are carried as plain fields of `WorkspacePath`.
- `strsim::levenshtein` is a foreign call. It is defined here by its recursive minimum.
- MacroTable.ScoreCandidates: the `HashMap` iteration order is unspecified, so candidates are visited in a nondeterministic order. The ranking is stated up to the order of equal distances.
- MacroTable.Defines.GetWithGen: the `u16` overflow of `counter += 1` at 65535 is a precondition, not wrap-around or a panic.
- MacroTable.IsBuiltin: `"__RAND_INT*__"` and `"__RAND_UINT*__"` are matched literally, asterisk included, as the source's `contains` does.
- Text.ToLowercase: lower-cases ASCII letters only. Rust's `to_lowercase` also maps non-ASCII letters.
- Text.IsWhitespace: `trim` is modelled with the Unicode White_Space characters, and strings are sequences of Dafny characters, not UTF-8 bytes.
- `Rc`/`Arc` sharing of tokens and names is left out: the model uses plain values.
- `Definition` is reduced to the variants the table distinguishes: `Void`, `Value` and `Function`. A function keeps its parameters, its body and the position of its definition.
