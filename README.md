# AIndroCode code-execution and editor core, in Dafny

This project models the core of AIndroCode, a browser IDE with an Express
backend:

- **Execution routes** (`backend/routes/execute.js`). `POST /run` checks the
  request and resolves the language in the runner registry. It then creates
  a remote sandbox, writes the auxiliary files and the main file, installs
  dependencies, and runs the program. In HTML mode it starts a static server
  instead. It maps the result and kills the sandbox in `finally`. `POST
  /command` runs one shell command in a directory, and `POST /install` runs
  one package-manager command.
- **AI routes** (`backend/routes/ai.js`). These are the guards of
  `/generate`, `/fix` and `/chat`, the `/fix` loop, and the context and
  message list `/chat` sends.
- **Language detection** (`src/lib/constants.ts`): the extension table and
  `getLanguageFromFilename`.
- **Editor page** (`src/pages/IDE.tsx`): the create, delete, rename and
  code-change handlers over the flat file list and the selected file.
- **File explorer** (`src/components/FileExplorer.tsx`): the expanded-folder
  toggle, the empty-name guards of the create and rename inputs, and the
  rows the tree renders, each with its level and path.

Modules, one per file:

- `Wrappers`: `Option`.
- `Text`: the JavaScript string operations the core uses: `toLowerCase` on
  ASCII, `split`, `join`, `split(...).pop()`, `trim`, `substring` and
  concatenation of parts.
- `Tables`: object-literal lookup `table[key]`.
- `Registry`: `LANGUAGE_RUNNERS`.
- `Shell`: how a POSIX shell reads the double-quoted word of the piped-input
  command (section 2.2.3 of the POSIX Shell Command Language).
- `Execute`: the three routes.
  - The E2B sandbox is a class `Sandbox` with an append-only call `log` and
    a kill counter.
  - The calls that throw are fixed by the `Platform` parameter: creation
    fails, or the call at log position `fault` throws.
  - `commands.run` answers through the uninterpreted `reply`.
- `Ai`: the three AI routes. The model is an uninterpreted oracle from the
  query to an optional text; `None` stands for a throw.
- `Languages`: language detection.
- `Explorer`: `FileNode`, the explorer panel as a class `Panel`, and the
  rendered rows.
- `Workspace`: the editor page handlers, as functions from the old state to
  the new one.

A JavaScript falsy string is modelled as `""`. An absent field is `None`,
and a defaulted field is resolved by a function named after the field.

## Model

| member | source | states |
|---|---|---|
| Text.Lower | backend/routes/execute.js:31 | lower-casing keeps the length and lower-cases each character on its own |
| Text.LowerIdempotent | src/lib/constants.ts:23 | lower-casing twice is lower-casing once |
| Text.Split | src/lib/constants.ts:23 | `split` on one character gives at least one part, and no part holds the separator |
| Text.JoinSplit | backend/routes/execute.js:176 | joining the parts of a split with the separator gives back the text |
| Text.SplitJoin | backend/routes/execute.js:176 | splitting a join of separator-free parts gives back the parts |
| Text.SplitAround | src/lib/constants.ts:23 | splitting at a separator splits the two sides independently |
| Text.LastSegment | src/lib/constants.ts:23 | `split(sep).pop()` never holds the separator |
| Text.LastSegmentAfter | src/lib/constants.ts:23 | the last part of `prefix + sep + ext` is `ext` when `ext` has no separator |
| Text.TrimSpec | src/components/FileExplorer.tsx:56 | `trim` keeps the text between a whitespace prefix and a whitespace suffix, and what it keeps has no whitespace at either edge |
| Text.TrimEmptyIff | src/components/FileExplorer.tsx:56 | a text trims to empty exactly when it is all whitespace |
| Text.Prefix | backend/routes/ai.js:107 | `substring(0, n)` is a prefix of length `min(n, length)` |
| Text.ConcatAppend | backend/routes/ai.js:157-159 | appending parts one by one distributes over concatenation of the part lists |
| Text.ConcatAt | backend/routes/ai.js:157-159 | each part sits between the parts before it and the parts after it |
| Tables.Find | backend/routes/execute.js:32 | `table[key]` is present exactly when some entry has the key, and it is that entry's value |
| Tables.FindAt | backend/routes/execute.js:32 | in a table with distinct keys every entry is found under its own key |
| Tables.FindFirst | src/lib/constants.ts:24 | the first entry with a key is the one found |
| Registry.KeysListed | backend/routes/execute.js:36 | the supported list is the 12 registry keys in declaration order |
| Registry.Lookup | backend/routes/execute.js:32-33 | a runner is found exactly for the registry keys, and it is that key's runner |
| Registry.RunCommandUsesPath | backend/routes/execute.js:8-19 | two paths give the same command exactly when they are equal, except for java, whose command ignores the path |
| Registry.RunnersDistinct | backend/routes/execute.js:7-20 | no registry key is repeated |
| Registry.LookupEntry | backend/routes/execute.js:7-20 | every registry entry is found under its own key |
| Registry.CompiledShapes | backend/routes/execute.js:13-17 | c, cpp and rust compile to /app_out, and java uses the fixed /Main.java entry |
| Shell.EscapeQuotesRoundTrip | backend/routes/execute.js:109 | removing the backslashes added before quotes gives back the input |
| Shell.EscapeQuotesIdentity | backend/routes/execute.js:109 | input without a double quote is not changed by the escaping |
| Shell.PipeInputLeavesInputUnquoted | backend/routes/execute.js:109 | as written, the double-quoted part after `bash -lc` closes right after `printf %s `, so the outer shell reads the escaped input unquoted: blanks split it, and `;`, `$(...)` or a newline in it act as outer-shell syntax |
| Shell.QuoteRoundTrip | backend/routes/execute.js:109 | a properly quoted word reads back as exactly its text, whatever it holds, and ends where intended |
| Shell.PipeInputQuotedOuter | backend/routes/execute.js:109 | with proper quoting, `bash -lc` receives exactly the intended script as one word |
| Shell.PipeInputQuotedInner | backend/routes/execute.js:109 | inside that script, the word printed into the pipe is exactly the input |
| Execute.Sandbox.constructor | backend/routes/execute.js:43 | a new sandbox has an empty log and has not been killed |
| Execute.Sandbox.WriteFile | backend/routes/execute.js:52 | `files.write` appends one write to the log and fails exactly at the faulting position |
| Execute.Sandbox.RunCommand | backend/routes/execute.js:111 | `commands.run` appends one command to the log and answers the reply, or throws at the faulting position |
| Execute.Sandbox.GetHostname | backend/routes/execute.js:91-93 | `getHostname` appends one lookup to the log and answers the host, or throws at the faulting position |
| Execute.Sandbox.Kill | backend/routes/execute.js:130-133 | `kill` counts one kill and never throws |
| Execute.MapRaw | backend/routes/execute.js:120-126 | success exactly for exit code 0; a missing exit code reports 0; stdout falls back to logs; stderr is kept |
| Execute.ValidateRun | backend/routes/execute.js:29-38 | a request passes exactly when it has code and its lower-cased language is a registry key; empty code is rejected first; an unknown language is rejected with the supported keys |
| Execute.LanguageCaseInsensitive | backend/routes/execute.js:31-32 | a language and its lower-cased form are accepted alike and resolve to the same runner |
| Execute.TargetResolves | backend/routes/execute.js:51 | a resolved path is absolute, resolving it again changes nothing, and a relative path is placed under /project |
| Execute.DetectHtmlIgnoresCase | backend/routes/execute.js:23 | HTML detection gives the same answer for a text and its lower-cased copy |
| Execute.DetectHtmlFinds | backend/routes/execute.js:23 | `<html` in any case, followed by whitespace or `>`, is detected anywhere in the code |
| Execute.AuxWrites | backend/routes/execute.js:49-54 | one write per auxiliary file, in request order, to its resolved path with its content |
| Execute.NamesManifestIff | backend/routes/execute.js:69 | a path names the manifest exactly when it equals the name or ends with `/name` |
| Execute.InstallOpsIff | backend/routes/execute.js:67-81 | npm install runs exactly for JavaScript or TypeScript with a package.json; pip install runs exactly for Python with a requirements.txt; at most one install runs |
| Execute.MainFileWins | backend/routes/execute.js:50-65 | after the run the main path holds the code, even when an auxiliary file has that path; every other path holds its last auxiliary write |
| Execute.HtmlMode | backend/routes/execute.js:61-103 | HTML mode writes /project/index.html, starts only the static server beside installs, answers exit code 0 with empty output, and gives the :8000 preview address when there is a host |
| Execute.RunsRunnerCommand | backend/routes/execute.js:56-109 | outside HTML mode the runner gets the resolved path or /project/main.ext; the command runs as built without input and piped with input |
| Execute.RunEndedMeans | backend/routes/execute.js:41-129 | a run's log is its plan cut short at the call that threw, answered 500; otherwise it is the whole plan, answered 200 with the mapped reply |
| Execute.Perform | backend/routes/execute.js:50-81 | the writes and commands are made in order and stop at the first call that throws |
| Execute.Drive | backend/routes/execute.js:65-126 | the sandbox log and response are those of the plan, cut short at a throw |
| Execute.RunSteps | backend/routes/execute.js:41-126 | a `/run` with a created sandbox ends as `RunEnded` says |
| Execute.HandleRun | backend/routes/execute.js:26-135 | an invalid request gets 400 and no sandbox; a failed create gets 500; otherwise the sandbox is killed exactly once, with the log and response of `RunEnded` |
| Execute.HandleCommand | backend/routes/execute.js:138-166 | an empty command gets 400 and no sandbox; otherwise `mkdir -p` and then the command run in the directory (default /project), cut short at a throw, and the sandbox is killed once |
| Execute.ValidateInstall | backend/routes/execute.js:170-185 | a request passes exactly when the package list is a non-empty array and the manager is npm, pip, apt or cargo; the list is checked first; the command is the manager's prefix plus the packages joined with spaces |
| Execute.InstallCommandListsPackages | backend/routes/execute.js:175-182 | the package list can be read back from the install command when no package holds a space |
| Execute.HandleInstall | backend/routes/execute.js:169-208 | a rejected request gets 400 and no sandbox; otherwise exactly one `bash -lc` command runs and the sandbox is killed once |
| Ai.GenerateGuard | backend/routes/ai.js:11-17 | `/generate` passes exactly with a prompt and a key, and the prompt is checked first |
| Ai.HandleGenerate | backend/routes/ai.js:8-49 | a failed guard gets 400 without a model call; otherwise exactly one model call with the context and prompt, answering its text or 500 |
| Ai.FixLoop | backend/routes/ai.js:70-116 | at most one pass runs, and none when `maxIterations <= 0`; the pass count stays within a bound of at least 1, while a positive bound below 1 such as 0.5 still gets one pass; the fixes count the passes and each records the first 200 characters of the original error; the code becomes the trimmed answer, or stays the input when no pass ran |
| Ai.HandleFix | backend/routes/ai.js:52-133 | as written, a failed guard gets 400; every request that passes it gets 500, after at most one model call |
| Ai.HandleFixIntended | backend/routes/ai.js:118-124 | the intended response carries the fixed code, the pass count and the fixes, or 500 when the model throws |
| Ai.ChatGuard | backend/routes/ai.js:146-148 | `/chat` passes exactly with a message and a key |
| Ai.Sections | backend/routes/ai.js:157-159 | one section per file, in order, each made from that file |
| Ai.FilesInOrder | backend/routes/ai.js:155-160 | each file's section sits between the sections of the files before it and those of the files after it |
| Ai.FilesSectionAppend | backend/routes/ai.js:157-159 | the sections of two file lists are the first list's sections followed by the second's |
| Ai.EnrichContext | backend/routes/ai.js:154-160 | the loop that appends file by file builds the enriched context |
| Ai.EnrichedKeepsContext | backend/routes/ai.js:154-160 | with no files the context is unchanged; otherwise it starts with the context, then the files header |
| Ai.ChatMessages | backend/routes/ai.js:164-167 | the messages are the history unchanged, then exactly one user message |
| Ai.HandleChat | backend/routes/ai.js:136-191 | a failed guard gets 400 without a model call; otherwise exactly one model call with the enriched context and the messages |
| Languages.Extension | src/lib/constants.ts:23 | the extension has no dot and no upper-case letter |
| Languages.LanguageIn | src/lib/constants.ts:24 | the result is plaintext or the language of an entry with that extension, and plaintext when no entry has it |
| Languages.LanguageInEntry | src/lib/constants.ts:24 | the first entry with an extension decides its language, and an empty language falls back to plaintext |
| Languages.LanguageMapDistinct | src/lib/constants.ts:2-20 | no extension is listed twice |
| Languages.LanguageMapPlain | src/lib/constants.ts:2-20 | every extension is lower-case without a dot, and every language is non-empty |
| Languages.GetLanguageFromFilename | src/lib/constants.ts:22-25 | the result is always one of the table's languages or plaintext |
| Languages.ExtensionAfterLastDot | src/lib/constants.ts:23 | the extension of `prefix.ext` is `ext` lower-cased, whatever the prefix holds |
| Languages.LastSegmentOnly | src/lib/constants.ts:23 | only the part after the last dot matters, so `a.test.ts` is detected as `ts` |
| Languages.CaseInsensitive | src/lib/constants.ts:23 | an extension and its lower-cased form are detected alike |
| Languages.WholeName | src/lib/constants.ts:23-24 | a name without a dot is looked up whole, lower-cased |
| Languages.EveryEntryDetected | src/lib/constants.ts:2-24 | for each of the 17 entries, any name ending in a dot and that extension is detected as the entry's language (`a.test.ts` is typescript) |
| Languages.EveryKeyAsName | src/lib/constants.ts:2-24 | each extension used as a whole name without a dot (`c`, `go`) is detected as its entry's language |
| Languages.NoExtension | src/lib/constants.ts:23-24 | an empty name and a name ending in a dot are plaintext |
| Explorer.Toggled | src/components/FileExplorer.tsx:43-52 | toggling flips the folder's membership and keeps every other id |
| Explorer.ToggleTwice | src/components/FileExplorer.tsx:43-52 | toggling the same folder twice restores the set |
| Explorer.Panel.constructor | src/components/FileExplorer.tsx:36-41 | the panel starts with nothing expanded and no input open |
| Explorer.Panel.ToggleFolder | src/components/FileExplorer.tsx:43-52 | the expanded set becomes its toggle, and nothing else in the panel changes |
| Explorer.Panel.HandleCreate | src/components/FileExplorer.tsx:55-62 | a name that trims to empty changes nothing; otherwise the untrimmed name, kind and parent path go up, and the input resets |
| Explorer.Panel.HandleRename | src/components/FileExplorer.tsx:64-71 | a name that trims to empty changes nothing; otherwise the untrimmed name goes up, and editing ends |
| Explorer.NameAccepted | src/components/FileExplorer.tsx:56 | a name is accepted exactly when it is not all whitespace |
| Explorer.CurrentPath | src/components/FileExplorer.tsx:83 | a root node's path is its name; a nested node's path is the parent path, a slash, then its name |
| Explorer.Rows | src/components/FileExplorer.tsx:78-79 | at least as many rows as nodes; no row is above the list's level; under a non-empty parent path every row's path starts with that path and a slash |
| Explorer.NodeRows | src/components/FileExplorer.tsx:227-228 | a node's own row comes first, at its level with its path; the rows after it are deeper; a node that is not an expanded folder with children has only its own row |
| Explorer.EachNodeShown | src/components/FileExplorer.tsx:78-83 | every node of a list has its own row, at the list's level and with its path under the parent |
| Explorer.ChildRowsShown | src/components/FileExplorer.tsx:227-228 | an expanded folder with children shows each child at level + 1, with the folder's own path as the child's parent path |
| Explorer.CollapsedRows | src/components/FileExplorer.tsx:227-228 | with no open folder, the nodes render one row each, in order, at the list's level and under the parent path |
| Explorer.LevelRows | src/components/FileExplorer.tsx:78-83 | every row at the list's level shows one of the list's nodes, with its path under the parent path |
| Workspace.CreatedLanguage | src/pages/IDE.tsx:68 | the language given to a created node is never empty and holds no dot |
| Workspace.CreatedLanguageIsRawExtension | src/pages/IDE.tsx:68 | the created language of `prefix.ext` is the raw `ext`, neither mapped nor lower-cased |
| Workspace.CreatedLanguageWholeName | src/pages/IDE.tsx:68 | a name without a dot (`Makefile`) is its own language, and an empty name is plaintext |
| Workspace.CreatedLanguageTrailingDot | src/pages/IDE.tsx:68 | a name ending in a dot is created as plaintext |
| Workspace.CreateFile | src/pages/IDE.tsx:67-78 | one empty top-level node is appended after the old list, and it becomes the selection |
| Workspace.Without | src/pages/IDE.tsx:81 | the filter keeps exactly the nodes without the id |
| Workspace.WithoutAppend | src/pages/IDE.tsx:81 | the filter keeps order: filtering a concatenation filters each part |
| Workspace.WithoutAbsent | src/pages/IDE.tsx:81 | a list without the id is kept whole |
| Workspace.DeleteFile | src/pages/IDE.tsx:80-85 | every node with the id is dropped; a selection with that id becomes the first node of the list before the delete |
| Workspace.DeleteFirstKeepsItSelected | src/pages/IDE.tsx:80-85 | as written, deleting the selected first file leaves that deleted file selected |
| Workspace.DeleteFileReselecting | src/pages/IDE.tsx:80-85 | with the intended delete, a deleted selection moves to a remaining file, or to none exactly when none remains |
| Workspace.DeletedNeverSelected | src/pages/IDE.tsx:80-85 | with the intended delete, no node with the deleted id stays selected |
| Workspace.CreateThenDelete | src/pages/IDE.tsx:67-85 | creating a file with a fresh id and deleting it gives back the file list |
| Workspace.RenameChangesOnlyNames | src/pages/IDE.tsx:87-89 | renaming changes only the name, and only of the nodes with the id; the length, order, other fields and selection are kept |
| Workspace.RenameTwice | src/pages/IDE.tsx:87-89 | renaming twice is the same as renaming once to the second name |
| Workspace.CodeChangeReplacesSelected | src/pages/IDE.tsx:91-97 | with no selection or no value nothing changes; otherwise the selection and each node with its id become the selected copy with the new content, and other nodes are kept |
| Workspace.RenameThenEditRevertsName | src/pages/IDE.tsx:87-97 | as written, renaming the selected file and then editing it brings the old name back |
| Workspace.CodeChangeOnlyContent | src/pages/IDE.tsx:91-97 | with the intended edit only the content changes, and only on the nodes with the selected id |
| Workspace.RenameThenEditKeepsName | src/pages/IDE.tsx:87-97 | with the intended edit, a rename survives the next edit, and the edit lands in the content |

## Left out

- Network, SDKs and clocks.
  - The E2B SDK is the `Sandbox` class, and its throws are fixed in advance by `Platform`.
  - The Anthropic SDK is an oracle function.
  - Timeouts (60 000 and 120 000 ms), the model name, `max_tokens`, token usage and `console.error` logging are left out.
  - `Date.now()` ids are parameters.
- Sandbox close and kill: `kill?.() ?? close?.()` is modelled as one kill that never throws, because the source swallows its errors.
- The hostname accessor is a boolean of the platform, because `typeof sandbox.getHostname === 'function'` depends on the SDK version.
- The 500 responses carry only their status. The `error` and `details` texts come from the thrown object, which the model does not have.
- Prompt text: the system and user prompts of `/generate`, `/fix` and `/chat` (`backend/prompts/master-agent.js`) are fixed text without logic. The queries record only the fields the prompts are built from.
- Ai.FixLoop: re-executing the fixed code between passes is not modelled, because the source never re-executes.
- Ai.FixLoop: `maxIterations` is a number. A string or other JSON value, which JavaScript would coerce in `iteration < maxIterations`, is not modelled.
- Text.Prefix: counts Unicode scalar values, while `substring(0, 200)` counts UTF-16 code units. An error text with characters outside the Basic Multilingual Plane keeps fewer characters in JavaScript than in the model (100 emoji for 200 code units).
- Lower-casing covers ASCII letters only. JavaScript's full Unicode `toLowerCase` is not modelled.
- Lookups under keys inherited from `Object.prototype`, such as `constructor` or `toString`, are not modelled. The source would find a function there.
  - Languages.GetLanguageFromFilename would return that function.
  - Execute.ValidateRun would accept such a language, and the run would then throw.
  - Execute.ValidateInstall would accept such a manager and run the function's source text as the command.
- Request bodies with non-string or non-array values of the wrong type are not modelled. Fields are strings, and falsy values are `""`.
  - Execute.ValidateRun: `String(language)` of a non-string is not modelled.
  - Ai.Sections: an undefined file field printing as `undefined` is not modelled.
- The `/command` request's `timeout` only sets timeouts, so it is left out.
- `src/lib/indexedDB.ts`, `src/components/ProjectManager.tsx` and `src/lib/api.ts`: browser storage and fetch plumbing.
- UI components: Terminal, Preview, AIChat, CodeEditor, Auth and Settings, the toasts, animation and React rendering beyond the rows' level and path.
- `handleExecute` in `src/pages/IDE.tsx`: a simulated run on a timer.
- The explorer's create input inside a folder, shown for `isCreating === node.id`, is not modelled. Explorer.Panel.HandleCreate takes the parent path as a parameter instead.
- The route model keeps the commands and handlers as written. The corrected members named under Findings are proved beside them, so the sandbox log still matches the source.

## Findings

| source | as written | input that shows it | evidently intended | confidence | as-written member | corrected member |
|---|---|---|---|---|---|---|
| backend/routes/ai.js:118-124 | the response reads `message.usage`, but `message` is scoped to the loop body, so the handler throws | any request with code, error and key | answer 200 with `fixedCode`, `iterations` and `fixes` | high, not executed | Ai.HandleFix | Ai.HandleFixIntended |
| backend/routes/execute.js:109 | in the template literal `\"` is a plain quote, so the double-quoted part after `bash -lc` closes before the input and the outer shell reads the input unquoted: blanks split the script, and `;`, `$(...)` or a newline act as outer-shell syntax | input `a b` (bash -lc runs `printf %s a` only), `a; rm -rf x` or `$(id)` | the input printed verbatim into the program's standard input | high, not executed | Shell.PipeInputLeavesInputUnquoted | Shell.PipeInputQuotedOuter |
| src/pages/IDE.tsx:91-97 | the edit replaces the whole list node with the selected copy, which a rename did not update | rename the selected file, then type into it | only the content changes; the new name is kept | medium, not executed | Workspace.RenameThenEditRevertsName | Workspace.RenameThenEditKeepsName |
| src/pages/IDE.tsx:80-85 | the new selection is the first node of the list before the delete | delete the selected file when it is first in the list | select a file that remains, or none | medium, not executed | Workspace.DeleteFirstKeepsItSelected | Workspace.DeletedNeverSelected |
