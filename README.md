# APL token command builder: a verified model of its core

The application is a browser front end for the `arch-cli token` command-line
tool. It keeps a catalog of 29 token operations, such as `create-mint`,
`transfer`, `set-authority` and `batch-mint`. Each operation has a command
template with `{name}` tokens and a list of declared parameters. The user
fills in the parameters and the application does three things:

- builds the command line by substituting the values (`formatCommand`);
- checks the values against the declarations (`validateParameters`);
- rewrites keypair-like parameters into paths inside the project directory,
  which is taken from the settings store.

A session-wide keypair registry holds mock keypairs. These are created from
random bytes by the keypair manager page and by the keypair selector widget.

This project models that core in Dafny:

| module | file | models |
|---|---|---|
| `Types` | `types.dfy` | operation types, categories, parameter declarations and parameter values (`src/types/index.ts`) |
| `JsString`, `JsArray` | `jsstring.dfy`, `jsarray.dfy` | the JavaScript primitives the core uses (see below) |
| `CommandTemplate` | `template.dfy` | a command string as a sequence of literal pieces and `{name}` placeholders |
| `Utils` | `utils.dfy` | `formatCommand`, `validateParameters`, `getKeypairPath`, `truncateText` (`src/utils/index.ts`) |
| `OperationCatalog` | `catalog.dfy` | the 29 catalog entries, `getOperationById`, `getOperationsByCategory` (`src/data/tokenOperations.ts`) |
| `SettingsStore` | `settings.dfy` | `SettingsProvider`: defaults, load, `updateSettings`, `getKeypairPath` |
| `KeypairContext` | `keypair_context.dfy` | `KeypairProvider`: `addKeypair`, `removeKeypair`, `getKeypairByName`, `getKeypairById` |
| `KeyGeneration` | `keygen.dfy` | the mock keypair built by both `generateKeypair` handlers |
| `KeypairManager` | `keypair_manager.dfy` | the keypair manager page's state and handlers |
| `KeypairSelector` | `keypair_selector.dfy` | the keypair selector widget's state and handlers |
| `OperationDemo` | `operation_demo.dfy` | the operation page: the parameter map, keypair-path rewriting, the generated command, the errors and the execute guard |

The JavaScript primitives modelled in `JsString` and `JsArray` are:

- `String.prototype.indexOf`, `includes` and `replace` with a string pattern;
- `trim`;
- `Number#toString()` on integers, `toString(16)` and `padStart`;
- `Array.prototype.find` and `filter`.

Parameter values are a tagged union, `Absent | Str | Num | NaN | Bool`.
`Absent` stands for both `undefined` and `null`, and `NaN` is the value
`Number(...)` gives for a non-numeric text. The declared `type` of a parameter
decides how its value is rendered and checked.

Stateful parts of the source become classes whose fields the methods update:

- React state and setters become fields reassigned by methods.
- The keypair list becomes a `seq` field of the registry.
- Effects that rebuild derived state become explicit method calls. For
  example, `OperationDemoPage.Refresh` re-runs the effect after the settings
  change.

Loops in the source become `while`/`for` methods, each proved equal to a
specification function:

- the `forEach` loops of `formatCommand` and `validateParameters`;
- the two loops of the operation page that build `initialParams` and
  `processedParams`.

Randomness, identifiers and clocks are parameters:

- `generateId()` becomes an `id` argument.
- The `Math.random()` byte draws become a `KeyBytes` value.
- `new Date()` becomes a `createdAt` argument.
- `new RegExp(pattern).test(text)` becomes a `matches` function argument.

## Model

| member | source | states |
|---|---|---|
| Types.TypeOfName | src/types/index.ts:13-42 | a string read as an operation type is that type's literal |
| Types.TypeNameRoundTrip | src/types/index.ts:13-42 | every operation type is read back from its literal |
| Types.TypeNameInjective | src/types/index.ts:13-42 | the 29 operation-type literals are pairwise distinct |
| Types.CategoryNameInjective | src/types/index.ts:44-49 | the five category literals are pairwise distinct |
| Types.ParamNames | src/types/index.ts:51-52 | the declared names, one per parameter, in declaration order |
| Types.Lookup | src/utils/index.ts:22 | `parameters[param.name]`: the stored value, or `undefined` for a missing key |
| JsString.IndexOf | src/utils/index.ts:25 | the first position where the pattern occurs, or none exactly when it occurs nowhere |
| JsString.IncludesIff | src/components/OperationDemo.tsx:44-48 | `includes` holds exactly when the pattern occurs at some position |
| JsString.ReplaceFirstAt | src/utils/index.ts:25 | `replace` with a string pattern replaces the first occurrence only and keeps the text around it |
| JsString.ReplaceFirstNoMatch | src/utils/index.ts:25 | with no occurrence, `replace` returns the string unchanged |
| JsString.Trim | src/components/KeypairManager.tsx:13 | `trim` drops exactly the leading and trailing white space: the result is a contiguous slice that neither starts nor ends with white space, and it is empty exactly when the input is all white space |
| JsString.TrimIdempotent | src/components/KeypairManager.tsx:26 | trimming a trimmed name changes nothing |
| JsString.NatToDecimal | src/utils/index.ts:27 | `toString()` of a non-negative integer is a non-empty string of digits without a leading zero |
| JsString.DecimalRoundTrip | src/utils/index.ts:27-51 | `Number(n.toString())` gives back `n` for every integer |
| JsString.DecimalInjective | src/utils/index.ts:27 | distinct integers render differently |
| JsString.ToBase16 | src/components/KeypairManager.tsx:17 | `toString(16)` gives lowercase hexadecimal digits, a single digit exactly below 16 |
| JsString.PadStart | src/components/KeypairManager.tsx:17 | `padStart` keeps the string as the suffix and fills up to the length with the pad character |
| JsArray.Find | src/contexts/KeypairContext.tsx:46-50 | `find`: none exactly when no element satisfies the predicate, otherwise the first element that does |
| JsArray.FindFirst | src/data/tokenOperations.ts:886 | an element that satisfies the predicate with none before it is what `find` returns |
| JsArray.FindConcat | src/contexts/KeypairContext.tsx:38-46 | `find` on a concatenation answers from the first part when it can, otherwise from the second |
| JsArray.Filter | src/contexts/KeypairContext.tsx:42 | `filter` keeps exactly the elements that satisfy the predicate |
| JsArray.FilterConcat | src/contexts/KeypairContext.tsx:42 | `filter` distributes over concatenation, which preserves the order of what it keeps |
| JsArray.FilterAll | src/contexts/KeypairContext.tsx:42 | when every element passes, `filter` returns the array unchanged |
| JsArray.FilterEmptyIff | src/data/tokenOperations.ts:882 | `filter` returns nothing exactly when no element passes |
| JsArray.FilterKeepsOrder | src/data/tokenOperations.ts:882 | `filter` keeps an increasing order increasing |
| CommandTemplate.Token | src/utils/index.ts:25 | `` `{${name}}` ``: the name between one opening and one closing brace |
| CommandTemplate.WellFormedIsSearchable | src/data/tokenOperations.ts:10 | in a well-formed template every `{` opens a placeholder token |
| CommandTemplate.TextParse | src/data/tokenOperations.ts:10 | reading a command string as a template loses nothing: the template's text is the string |
| CommandTemplate.ParseText | src/data/tokenOperations.ts:10 | a well-formed template is read back from its own text, so the catalog's templates and command strings determine each other |
| CommandTemplate.ReplaceFirstFills | src/utils/index.ts:25 | replacing the first `{name}` in the text of a template is filling the first placeholder called `name` |
| CommandTemplate.FillSearchable | src/utils/index.ts:25 | a substituted value without `{` keeps every `{` an opening of a token |
| CommandTemplate.FillNames | src/utils/index.ts:25 | filling removes the first placeholder of that name and no other |
| CommandTemplate.FillWithoutPlaceholder | src/utils/index.ts:25 | filling a name the template lacks changes nothing |
| CommandTemplate.TokenInTextIff | src/utils/index.ts:25 | the text of a template contains `{name}` exactly when `name` is one of its placeholders |
| CommandTemplate.RemoveFirstIsDrop | src/utils/index.ts:21-32 | with distinct placeholder names, filling one name removes exactly that name |
| CommandTemplate.DropTwice | src/utils/index.ts:21-32 | filling names in two rounds removes what filling them in one round does |
| Utils.Rendered | src/utils/index.ts:23-30 | a parameter's token is left alone exactly when its value is `undefined`, `null` or `''`, or the parameter is a `file` |
| Utils.RenderedForms | src/utils/index.ts:24-29 | strings are substituted as they are, numbers as their decimal text, booleans as `true` or `false` by truthiness |
| Utils.FormatCommand | src/utils/index.ts:17-35 | the loop computes `Format`, substituting the declared parameters in declaration order |
| Utils.FormatFillsTemplate | src/utils/index.ts:17-35 | on a template whose values and names hold no brace, `formatCommand` fills placeholders: its result is the text of the filled template |
| Utils.FillAllNames | src/utils/index.ts:21-32 | the placeholders left after formatting are those of the template minus the names that were substituted |
| Utils.Filled | src/utils/index.ts:23-30 | the names substituted are exactly the declared parameters with a rendered value |
| Utils.FormatKeepsExactlyUnfilledTokens | src/utils/index.ts:22-31 | the formatted command still contains `{n}` exactly when `n` is a placeholder and was not substituted |
| Utils.FileTokenStays | src/utils/index.ts:24-30 | the token of a `file` parameter stays in the command whatever its value |
| Utils.FormatWithoutTokens | src/utils/index.ts:18-34 | a command without `{` comes back unchanged |
| Utils.ToNumber | src/utils/index.ts:51 | `Number(value)`: a number is itself, a text is its decimal reading, NaN stays NaN, and `true`/`false` are 1 and 0 |
| Utils.ParamErrors | src/utils/index.ts:41-65 | one parameter contributes at most one error |
| Utils.ValidateParameters | src/utils/index.ts:38-69 | the loop computes `Validate`, the errors in declaration order |
| Utils.ParamErrorsEmptyIff | src/utils/index.ts:41-65 | a parameter gets no error exactly when its value is acceptable: present if required, a number within its bounds if numeric, matching its pattern if a patterned string |
| Utils.RequiredMissing | src/utils/index.ts:44-47 | a required parameter without a value yields exactly `"<name> is required"` and nothing else |
| Utils.OptionalMissing | src/utils/index.ts:49 | an optional parameter without a value yields no error |
| Utils.NumberChecks | src/utils/index.ts:50-58 | number parameters follow the else-chain NaN, then below min, then above max, with those messages |
| Utils.NumberInRange | src/utils/index.ts:54-57 | a number within both bounds yields no error |
| Utils.PatternCheck | src/utils/index.ts:59-64 | a string with a non-empty pattern that does not match yields `"<name> format is invalid"`, otherwise no error |
| Utils.BooleanAndFileOnlyRequired | src/utils/index.ts:44-65 | `boolean` and `file` parameters get no error beyond the required check |
| Utils.ValidateConcat | src/utils/index.ts:41-66 | the errors of two parameter lists are the errors of the first followed by those of the second |
| Utils.ValidateLength | src/utils/index.ts:39-68 | there are at most as many errors as parameters |
| Utils.ValidateEmptyIff | src/utils/index.ts:38-69 | no error at all exactly when every parameter's value is acceptable |
| Utils.GetKeypairPath | src/utils/index.ts:9-14 | the path ends in `/<name>-keypair.json` |
| Utils.KeypairPathDirectory | src/utils/index.ts:10-13 | the directory part is the project directory when it is given and non-empty, `.` otherwise |
| Utils.KeypairPathInjective | src/utils/index.ts:9-14 | distinct keypair names give distinct paths in the same directory |
| Utils.TruncateText | src/utils/index.ts:88-91 | a text within the limit is returned as it is; a longer one is cut to the limit and `...` is appended |
| Utils.TruncateIdempotent | src/utils/index.ts:88-91 | truncating twice is truncating once |
| OperationCatalog.CatalogChecked | src/data/tokenOperations.ts:3-879 | every one of the 29 entries passes the entry checks (`EntryChecks`): the entry at position `k` has the `k`-th operation type and that type's literal as id, a well-formed command starting with `arch-cli token `, each placeholder declared and used once, distinct brace-free parameter names, and defaults only on `number` parameters, within bounds that are in order |
| OperationCatalog.CreateMintDefaults | src/data/tokenOperations.ts:13-20 | `decimals` defaults to 6, within its bounds 0 and 9 |
| OperationCatalog.TransferCheckedDefaults | src/data/tokenOperations.ts:481-489 | `amount` and `decimals` are the only defaulted parameters of `transfer-checked`, both numbers, and `decimals` defaults to 6 within its bounds 0 and 9 |
| OperationCatalog.CreateMultisigDefaults | src/data/tokenOperations.ts:706-738 | `m` defaults to 2, within its bounds 1 and 11 |
| OperationCatalog.CheckSetAuthority | src/data/tokenOperations.ts:634-672 | `set-authority` passes the entry checks at its position |
| OperationCatalog.CheckTransfer | src/data/tokenOperations.ts:152-190 | `transfer` passes the entry checks at its position |
| OperationCatalog.CatalogIndexInjective | src/data/tokenOperations.ts:3-879 | distinct positions hold distinct operation types |
| OperationCatalog.CatalogIdentity | src/data/tokenOperations.ts:3-879 | every entry's id is its type's literal, and every entry sits at its type's position |
| OperationCatalog.IdsDistinct | src/data/tokenOperations.ts:3-879 | all 29 ids are distinct |
| OperationCatalog.EntryOfType | src/data/tokenOperations.ts:3-879 | each operation type has its entry, whose id is the type's literal |
| OperationCatalog.FindOperationIsFind | src/data/tokenOperations.ts:886 | the catalog search is `find` with the id test |
| OperationCatalog.FoundInList | src/data/tokenOperations.ts:886 | what the search finds is an entry of the list and carries the id looked up |
| OperationCatalog.GetOperationByIdFinds | src/data/tokenOperations.ts:885-887 | looking up the id of an operation type finds that type's entry |
| OperationCatalog.GetOperationByIdIff | src/data/tokenOperations.ts:885-887 | an id is found exactly when it is one of the 29 operation ids, and what is found carries that id |
| OperationCatalog.FoundEntryChecked | src/data/tokenOperations.ts:885-887 | what a lookup finds passes the entry checks, so its parameter names are distinct and its defaults consistent |
| OperationCatalog.CategorySelection | src/data/tokenOperations.ts:881-883 | a category selects exactly the entries of that category |
| OperationCatalog.CategoryOrder | src/data/tokenOperations.ts:881-883 | the selected entries come in catalog order |
| OperationCatalog.CategoryUnknown | src/data/tokenOperations.ts:881-883 | a string that names no category selects nothing |
| OperationCatalog.TransferExample | src/data/tokenOperations.ts:157-189 | formatting `transfer` with the two `111…1` accounts, amount 100000 and owner `./owner.json` gives exactly its example command |
| OperationCatalog.BatchTransferKeepsFileToken | src/data/tokenOperations.ts:829-853 | the `batch-transfer` command keeps its `{transfers-file}` token whatever the values |
| OperationCatalog.BatchMintKeepsFileToken | src/data/tokenOperations.ts:854-878 | the `batch-mint` command keeps its `{mints-file}` token whatever the values |
| SettingsStore.MergeFields | src/contexts/SettingsContext.tsx:45-55 | a spread merge takes each field the update has and keeps each field it lacks |
| SettingsStore.MergeIdempotent | src/contexts/SettingsContext.tsx:54-56 | applying the same update twice is applying it once, and an empty update changes nothing |
| SettingsStore.LoadDefaults | src/contexts/SettingsContext.tsx:15-51 | with no saved record, or one that does not parse, the settings are `/tmp`, `devnet`, `true` |
| SettingsStore.LoadSaved | src/contexts/SettingsContext.tsx:39-57 | loading a saved full record gives back the settings saved |
| SettingsStore.KeypairPathAgrees | src/contexts/SettingsContext.tsx:60-64 | the store's keypair path is the engine's `getKeypairPath` given the project directory |
| SettingsStore.SettingsProvider.constructor | src/contexts/SettingsContext.tsx:37-69 | the provider starts with the loaded settings and saves them, so the record in the store loads back to them |
| SettingsStore.SettingsProvider.UpdateSettings | src/contexts/SettingsContext.tsx:54-58 | the settings become the merge of the update over the old ones, and the store holds the full merged record |
| SettingsStore.SettingsProvider.GetKeypairPath | src/contexts/SettingsContext.tsx:60-64 | `<dir>/<name>-keypair.json`, with `.` in place of an empty directory |
| KeypairContext.WithoutIdAppend | src/contexts/KeypairContext.tsx:41-43 | removal drops every keypair with the id and keeps the others in order |
| KeypairContext.WithoutIdContents | src/contexts/KeypairContext.tsx:41-43 | what removal keeps has another id, and every keypair with another id is kept |
| KeypairContext.WithoutUnknownId | src/contexts/KeypairContext.tsx:41-43 | removing an id that no keypair has changes nothing |
| KeypairContext.AddThenRemove | src/contexts/KeypairContext.tsx:37-43 | adding a keypair with a fresh id and removing that id restores the list |
| KeypairContext.WithoutIdTwice | src/contexts/KeypairContext.tsx:41-43 | removing the same id twice is removing it once |
| KeypairContext.FindByNameAfterAdd | src/contexts/KeypairContext.tsx:37-47 | after an append, an earlier keypair with the name still wins; the new one is found only when none has the name |
| KeypairContext.FindByIdAfterAdd | src/contexts/KeypairContext.tsx:37-51 | likewise for lookup by id |
| KeypairContext.FindByIdAfterRemove | src/contexts/KeypairContext.tsx:41-51 | after removing an id, lookup by that id finds nothing |
| KeypairContext.KeypairRegistry.constructor | src/contexts/KeypairContext.tsx:35 | the registry starts empty |
| KeypairContext.KeypairRegistry.AddKeypair | src/contexts/KeypairContext.tsx:37-39 | the keypair is appended at the end |
| KeypairContext.KeypairRegistry.RemoveKeypair | src/contexts/KeypairContext.tsx:41-43 | the list becomes the old one without the keypairs that have the id |
| KeypairContext.KeypairRegistry.GetKeypairByName | src/contexts/KeypairContext.tsx:45-47 | the first keypair with that name, or none exactly when no keypair has it |
| KeypairContext.KeypairRegistry.GetKeypairById | src/contexts/KeypairContext.tsx:49-51 | the first keypair with that id, or none exactly when no keypair has it |
| KeyGeneration.HexValue | src/components/KeypairManager.tsx:17 | the value of a lowercase hexadecimal digit, which is that digit's position in `0123456789abcdef` |
| KeyGeneration.ByteBase16 | src/components/KeypairManager.tsx:17 | `toString(16)` of a byte is one digit below 16 and two digits otherwise, high digit first |
| KeyGeneration.HexByteDigits | src/components/KeypairManager.tsx:17 | a padded byte is exactly two lowercase hexadecimal digits whose value is the byte |
| KeyGeneration.HexEncode | src/components/KeypairManager.tsx:16-18 | the joined key has two lowercase hexadecimal digits per byte |
| KeyGeneration.HexRoundTrip | src/components/KeypairManager.tsx:16-22 | decoding the key gives back the bytes drawn |
| KeyGeneration.HexEncodeInjective | src/components/KeypairManager.tsx:16-22 | different byte draws give different keys |
| KeyGeneration.OptionalText | src/components/KeypairManager.tsx:30 | `trim() \|\| undefined`: absent exactly when the text is all white space, otherwise the trimmed text |
| KeyGeneration.NewKeypairRecord | src/components/KeypairManager.tsx:13-31 | a blank or all-white-space name creates nothing; any other name creates a record with the id and time given, the trimmed name and the trimmed-or-absent description |
| KeyGeneration.NewKeypairKeys | src/components/KeypairManager.tsx:16-22 | from 32 and 64 bytes the keys are 64 and 128 lowercase hexadecimal digits that decode to those bytes |
| KeypairManager.KeypairManagerPage.constructor | src/components/KeypairManager.tsx:9-10 | both form fields start empty |
| KeypairManager.KeypairManagerPage.SetName | src/components/KeypairManager.tsx:9 | the name field takes the input; the description is kept |
| KeypairManager.KeypairManagerPage.SetDescription | src/components/KeypairManager.tsx:10 | the description field takes the input; the name is kept |
| KeypairManager.KeypairManagerPage.GenerateKeypair | src/components/KeypairManager.tsx:12-36 | a blank name changes nothing; otherwise exactly the new keypair is appended to the registry and both fields are cleared |
| KeypairManager.KeypairManagerPage.DeleteKeypair | src/components/KeypairManager.tsx:38-40 | exactly the effect of `removeKeypair(id)` |
| KeypairSelector.KeypairSelectorWidget.constructor | src/components/KeypairSelector.tsx:26-29 | the dropdown and the form start closed, and the fields start empty |
| KeypairSelector.KeypairSelectorWidget.SelectedKeypair | src/components/KeypairSelector.tsx:31 | the first registry keypair named by the current value, or none exactly when no keypair has that name |
| KeypairSelector.KeypairSelectorWidget.OpenCreateForm | src/components/KeypairSelector.tsx:27-29 | the form opens with the name and description typed in; the value and the dropdown are kept |
| KeypairSelector.KeypairSelectorWidget.SetValue | src/components/KeypairSelector.tsx:31 | the selected value changes and nothing else |
| KeypairSelector.KeypairSelectorWidget.GenerateKeypair | src/components/KeypairSelector.tsx:33-60 | a blank name changes nothing and calls no `onChange`; otherwise the keypair is appended, `onChange` receives its trimmed name, the fields are reset and the form and the dropdown are closed |
| KeypairSelector.SelectedAfterGenerate | src/components/KeypairSelector.tsx:31-55 | after a generation the new name selects the new keypair unless an earlier keypair already has that name |
| OperationDemo.KeypairParamIff | src/components/OperationDemo.tsx:44-48 | a parameter is keypair-like exactly when its name contains `authority`, `owner`, `payer`, `keypair` or `signer` |
| OperationDemo.AuthorityTypeIsKeypairLike | src/components/OperationDemo.tsx:44-48 | `authority-type` counts as keypair-like because it contains `authority` |
| OperationDemo.KeypairValuePathNoFallback | src/components/OperationDemo.tsx:52 | the page's path agrees with `getKeypairPath` for a non-empty directory but, unlike it, has no `.` fallback |
| OperationDemo.DefaultsKeys | src/components/OperationDemo.tsx:27-34 | the initial map has exactly the parameters that declare a default |
| OperationDemo.DefaultsValues | src/components/OperationDemo.tsx:27-34 | each of those parameters is set to its default |
| OperationDemo.InitialParams | src/components/OperationDemo.tsx:28-33 | the loop computes `Defaults` |
| OperationDemo.ProcessedEntries | src/components/OperationDemo.tsx:42-54 | rewriting keeps the keys; a declared keypair-like parameter with a truthy value becomes `<dir>/<value>-keypair.json`, and every other entry is unchanged |
| OperationDemo.ProcessParams | src/components/OperationDemo.tsx:42-54 | the loop computes `Processed` |
| OperationDemo.LoadedDefaults | src/components/OperationDemo.tsx:23-34 | for a known id, the seeded map has exactly the defaulted parameters, each set to its default |
| OperationDemo.SetAuthorityTypeRewritten | src/components/OperationDemo.tsx:44-52 | a truthy `authority-type` of `set-authority` is rewritten into a keypair path |
| OperationDemo.OperationDemoPage.constructor | src/components/OperationDemo.tsx:12-19 | no operation, an empty map, command and error list, nothing executing, and the catalog it is given |
| OperationDemo.OperationDemoPage.Refresh | src/components/OperationDemo.tsx:39-62 | the command is formatted from the rewritten map and the errors are validated on the unrewritten map; nothing else changes |
| OperationDemo.OperationDemoPage.SelectOperation | src/components/OperationDemo.tsx:21-37 | an empty id changes nothing; otherwise the operation becomes the result of searching the page's catalog for the id (none for an unknown id), a found one seeds the map with its defaults and the command and errors are recomputed; an unknown id keeps the map, the command and the errors as they were |
| OperationDemo.OperationDemoPage.Show | src/components/OperationDemo.tsx:24-62 | shows the given operation: when there is one, seeds the map and recomputes the command and errors; when there is none, keeps the map, the command and the errors |
| OperationDemo.OperationDemoPage.HandleParameterChange | src/components/OperationDemo.tsx:64-69 | only the named key takes the new value, every other key is unchanged, and the command and errors are recomputed |
| OperationDemo.OperationDemoPage.HandleExecuteCommand | src/components/OperationDemo.tsx:79-83 | with no operation or with errors nothing happens; otherwise execution starts with no result yet |

## Left out

- Display text: titles, descriptions, examples and parameter descriptions and placeholders are held in a `Listing` per entry. Only the `transfer` example is related to the engine, by `TransferExample`.
- Floating-point numbers: values, defaults and bounds are integers. `Number(text)` is modelled for an optional `-` followed by decimal digits; any other text counts as NaN. Fractions, exponents, a leading `+`, `Infinity`, hexadecimal, binary (`0b`) and octal (`0o`) literals and surrounding white space are not modelled; all of these read as NaN.
- `Utils.ParamErrors`: `new RegExp(pattern).test(value)` is the `matches` argument. No catalog parameter sets a pattern.
- Replacement patterns: `$&`, `$1` and the like in a substituted value are not interpreted. Values are taken to contain no `$`.
- `localStorage` and JSON: the saved record is the `Stored` datatype. It is either no record (which also covers an empty string), a text that does not parse, or a record of optional fields. Parsed records with extra or mis-typed fields are not modelled.
- Randomness, identifiers and time are inputs:
  - `generateId` and the collisions it could produce;
  - the random byte draws;
  - `new Date()`.
- `OperationDemo.OperationDemoPage.HandleExecuteCommand`: the simulated outcome after the two-second timer is not modelled. That covers the 70% success draw and the result message. Only the guard and the start of execution are.
- `OperationDemo.OperationDemoPage.SelectOperation`: the page searches the catalog it was constructed with instead of the imported `tokenOperations`. Constructed with `TokenOperations()`, its search is `GetOperationById`.
- `Utils.TruncateText`: lengths and cuts count characters (Unicode scalar values), while `text.length` and `substring` count UTF-16 code units, so a text with characters outside the Basic Multilingual Plane is cut at a different place. The function has no caller in the app.
- React effects are explicit method calls: `Refresh` after the settings change, and `SelectOperation` for the route parameter. The model does not capture render timing or batching.
- Browser I/O: clipboard copying and the `isCopied` flag, and file downloads from the keypair pages.
- Other pages and helpers: the Home, Settings, Command History and About pages and the application routing. Also `getCategoryColor`, `getStatusColor`, `debounce`, `formatTimestamp`, `formatAmount`, `parseAmount`, `generateExampleKeypairPath` and `generateExamplePublicKey`.
- `file` parameters: the code never substitutes them (src/utils/index.ts:24-30). The model follows the code: see `Utils.FileTokenStays` and the two `...KeepsFileToken` lemmas. Consequently the `batch-transfer` and `batch-mint` example commands, which show a file name, are never produced.
- The `create-multisig` example lists two signer paths where its `signers` placeholder text lists three. Both are display text and are not related to the engine.
