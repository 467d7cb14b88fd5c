# Class2GV scanner in Dafny

Class2GV reads the PHP token stream of one class and builds a call graph. It
does this in three nested scans over one shared array pointer:

- `decomposeClass` walks the top level. It remembers the last visibility
  keyword (`$nextMethodType`) and hands every `function` token to `getMethod`.
- `getMethod` takes the first non-whitespace token after `function` as the
  method's name and registers it. `findOpenMethodBrace` then moves to the
  first bare `{`.
- `parseMethod` scans the body. It counts the brace balance and runs a
  four-state detector for `$this -> name`. If the next non-whitespace token
  is `(`, the detector records a call edge; any other token records a
  property access.

The result is three tables:
- `methodsList`: caller to callees, one entry per call site;
- `methodsType`: method to visibility text, `"inherited"`, or `false`;
- `variableList`: property to the methods that access it, without repeats.

The project is laid out as follows:

- `Tokens` (tokens.dfy) models the tokens and `isToken`.
- `Graph` (graph.dfy) models the tables and the three updates the scanner
  makes to them.
- `Scanner` (scanner.dfy) writes each scan loop as a function of the token
  sequence. A position is an index into that sequence. Position |ts| stands
  for the PHP pointer once `next()` has run past the last token.
- `Analyzer.Class2GV` (class2gv.dfy) is the object itself. It has the token
  array, the pointer `pos` and the tables as fields. Its methods are the
  source's do-while loops over the one shared cursor. Each method's
  postcondition says it leaves exactly the state the matching `Scanner`
  function computes.
- `BodyProps` (body_props.dfy) and `DecomposeProps` (decompose_props.dfy)
  prove what those functions promise:
  - brace matching and the error condition;
  - that whitespace is invisible;
  - call and access recording;
  - no backtracking;
  - what a scan may change and what it reads;
  - that the tables stay well formed;
  - the skipped token after each body.
- `ScanExamples` (examples.dfy) works through small classes, with the names
  as parameters.

Four points of the source's behaviour that the model keeps as written:

- A second declaration of a name overwrites both its callee list and its
  type, an explicit visibility included (Class2GV.php:142-143).
- A callee that is never declared gets only a `methodsType` entry
  ("inherited") and no `methodsList` entry (Class2GV.php:112-114).
- `decomposeClass` calls `next()` once more after `getMethod` returns
  (Class2GV.php:146, 167), so the pass does not resume at the token where the
  body scan stopped: the token right after each closing `}` is never looked at.
- `decomposeClass` resets `methodsType` and `variableList` but not
  `methodsList` (Class2GV.php:151-152). The model takes the earlier
  `methodsList` as an input.

## Model

| member | source | states |
|---|---|---|
| Tokens.IsTokenForms | Class2GV.php:68-76 | `isToken` never matches a bare character. A test against a list of ids matches exactly when one of the ids matches. Testing one id is the same as testing the one-element list. |
| Tokens.IsVisibilityForm | Class2GV.php:160 | The visibility test is `isToken` with T_PRIVATE, T_PROTECTED, T_PUBLIC, in both directions. |
| Tokens.IsStringBraceForm | Class2GV.php:93 | The string brace test is `isToken` with T_DOLLAR_OPEN_CURLY_BRACES, T_CURLY_OPEN, in both directions. |
| Graph.Declare | Class2GV.php:141-143 | A declaration sets the name's callee list to empty and its type to the pending type, overwriting any earlier entry. Every other entry and `variableList` are unchanged. |
| Graph.RecordCall | Class2GV.php:110-115 | A call appends the callee to the caller's list, keeping duplicates. The callee gets the type "inherited" only if it had none. Existing types and the other callers' lists are unchanged. |
| Graph.RecordAccess | Class2GV.php:116-122 | An access adds the caller to the property's accessors exactly when the caller is not there yet. The list keeps exactly the old members plus the caller, and a list without duplicates stays without duplicates. Other properties and both method tables are unchanged. |
| Graph.Initial | Class2GV.php:151-152 | `methodsType` and `variableList` start empty; `methodsList` keeps what it held. Starting from nothing gives well-formed tables. |
| Graph.DeclarePreserves | Class2GV.php:141-143 | A declaration keeps the tables well formed. |
| Graph.RecordCallPreserves | Class2GV.php:110-115 | A call edge from a declared caller keeps the tables well formed: every recorded callee has a type, and the caller stays declared. |
| Graph.RecordAccessPreserves | Class2GV.php:116-122 | An access edge from a declared caller keeps the tables well formed: no accessor repeats, and only declared methods are accessors. |
| Scanner.Delta | Class2GV.php:91-96 | A token changes the balance by at most one. It adds one exactly for `{`, T_CURLY_OPEN and T_DOLLAR_OPEN_CURLY_BRACES, and subtracts one exactly for `}`. |
| Scanner.Detect | Class2GV.php:98-125 | One detector step, fixed for every state and token. `$this` from the start state, `->` after `$this` and a name after `->` each advance the pattern and record nothing; the name is captured. Each state is reached only that way. After a captured name, any token restarts the detector and records exactly one edge for that name: a call when the token is `(`, an access otherwise. A `$this` that breaks a started pattern is not a fresh start. |
| Scanner.ScanFrom | Class2GV.php:83-128 | The body loop always advances past the token it starts on and never beyond the end of the tokens. |
| Scanner.ParseMethod | Class2GV.php:78-132 | `parseMethod` ends strictly after its start, within the tokens. Its only failure is "Bad brace balance!". |
| Scanner.NextNonWhitespace | Class2GV.php:136-139 | The `do next while whitespace` loop stops after its start, on a non-whitespace token or past the end. |
| Scanner.NextNonWhitespaceIsFirst | Class2GV.php:136-139 | That stop is exactly the first position after the start that is not whitespace (both directions). |
| Scanner.FindOpenBrace | Class2GV.php:60-66 | `findOpenMethodBrace` stops on a bare `{` strictly after its start, or past the end when there is none. |
| Scanner.FindOpenBraceIsFirst | Class2GV.php:60-66 | It passes over no `{`. If it runs past the end, no `{` follows the start at all. |
| Scanner.GetMethod | Class2GV.php:134-147 | `getMethod` leaves the cursor strictly after the `function` token and within the tokens. |
| Scanner.DecomposeFrom | Class2GV.php:157-167 | The top-level loop from any position ends within the tokens. When it succeeds, it ends past the last token. |
| Scanner.DecomposeMethod | Class2GV.php:162-166 | The `T_FUNCTION` branch has the same bounds. |
| Scanner.ResumeAfter | Class2GV.php:165-167 | What follows `getMethod` has the same bounds. |
| Scanner.ResumeOk | Class2GV.php:165-167 | After a declaration that reads without error, the pass goes on at the token after the next one. |
| Scanner.AtFunction | Class2GV.php:162-166 | On a `function` token the loop runs `getMethod` with the pending type, then goes on as `ResumeAfter` says. |
| Scanner.AtOther | Class2GV.php:159-167 | On any other token the loop takes a visibility keyword's text as pending, then goes to the next token, or ends successfully at the end. |
| Scanner.Decompose | Class2GV.php:149-168 | A successful `decomposeClass` ends with the pointer past the last token. |
| Analyzer.Class2GV.Next | Class2GV.php:64 | `next()` advances the pointer unless it is already past the end, and reports whether a token is there. |
| Analyzer.Class2GV.FindOpenMethodBrace | Class2GV.php:60-66 | The loop's final pointer is the one `FindOpenBrace` computes from the start. It reports whether a `{` was found. |
| Analyzer.Class2GV.CountBrace | Class2GV.php:91-96 | The three brace tests add exactly `Delta` of the token to the balance. |
| Analyzer.Class2GV.TrackCall | Class2GV.php:98-125 | The detector chain gives exactly `Detect`'s next state. The tables become exactly the old tables with `Detect`'s edge recorded. |
| Analyzer.Class2GV.ParseMethod | Class2GV.php:78-132 | The body loop over the shared cursor ends with the status, pointer and tables of `Scanner.ParseMethod`. |
| Analyzer.Class2GV.GetMethod | Class2GV.php:134-147 | The declaration reader ends with the status, pointer and tables of `Scanner.GetMethod`. |
| Analyzer.Class2GV.DecomposeClass | Class2GV.php:149-168 | The top-level loop installs the tokens and resets two tables. It ends with the status, pointer and tables of `Scanner.Decompose` on the earlier `methodsList`. |
| Analyzer.Class2GV.MakeGraphData | Class2GV.php:50-58 | `graphData` becomes exactly a copy of `methodsList`. |
| BodyProps.DepthFirst | Class2GV.php:91-96 | The balance of a range is the first token's change plus the balance of the rest. |
| BodyProps.ScanDepth | Class2GV.php:91-128 | The body loop's balance is the running sum of `Delta`. It stays positive at every position before the scan stops. If the scan stops before the end of the tokens, the balance is no longer positive. |
| BodyProps.BodyEndsAtMatchingBrace | Class2GV.php:80-131 | Started on a `{`, the balance stays positive until the scan stops and is never negative. The scan succeeds exactly when the balance is back to 0, and then the cursor stands one past the matching `}`. It fails with "Bad brace balance!" exactly when the tokens run out while the balance is still positive. |
| BodyProps.ScanShifted | Class2GV.php:83-128 | Inserting a token before the scan's start shifts the scan by one and changes nothing else. |
| BodyProps.ScanInsert | Class2GV.php:85-89 | Inserting a whitespace token after the scan's start leaves the final state unchanged and moves the end by at most one. |
| BodyProps.WhitespaceInBodyIsInvisible | Class2GV.php:85-89 | Whitespace anywhere in a body changes neither the outcome nor the tables, so `$this->foo ()` is a call like `$this->foo()`. |
| BodyProps.CallSiteRecorded | Class2GV.php:98-115 | `$this`, `->`, name, `(` appends the name to the caller's callees and types it "inherited" if it had no type. The balance is unchanged and the detector is back at its start. |
| BodyProps.AccessSiteRecorded | Class2GV.php:98-122 | `$this`, `->`, name, then any other non-whitespace token adds the caller to the property's accessors. That token still counts for the balance. |
| BodyProps.InertToken | Class2GV.php:91-125 | With the detector at rest, a token that is not `$this` and changes no balance changes nothing. |
| BodyProps.ChainedAccessRecordsOnlyFirst | Class2GV.php:98-125 | In `$this->a->b(` only `a` is recorded, as a property, and nothing is recorded for `b`. |
| BodyProps.BreakingThisNotRetested | Class2GV.php:98-125 | In `$this $this->f(` the second `$this` breaks the first pattern and is not a fresh start, so no call is recorded. |
| BodyProps.ScanFrame | Class2GV.php:110-122 | A body scan for a caller changes no other method's callee list and never changes an existing type. Any new type is "inherited". It adds only the caller as an accessor. |
| BodyProps.EmitPreserves | Class2GV.php:107-123 | Recording one detector edge from a declared caller keeps the tables well formed. |
| BodyProps.ScanPreserves | Class2GV.php:83-128 | A body scan of a declared method keeps the tables well formed. |
| BodyProps.ScanLocal | Class2GV.php:83-128 | The body loop reads only the tokens from where it starts to where it stops. |
| BodyProps.EmptyBody | Class2GV.php:91-128 | `{}` ends right after its `}` and records nothing. |
| DecomposeProps.GetMethodPreserves | Class2GV.php:134-147 | A declaration followed by its body scan keeps the tables well formed. |
| DecomposeProps.DecomposeFromPreserves | Class2GV.php:157-167 | The top-level loop keeps the tables well formed from any position. |
| DecomposeProps.ResumeAfterPreserves | Class2GV.php:165-167 | So does the rest of the pass after a declaration. |
| DecomposeProps.DecomposeWellFormed | Class2GV.php:149-168 | After a run from empty tables, whether it succeeds or stops on an error: every caller and every recorded callee has a type, each property lists each accessor once, and accessors are declared methods. |
| DecomposeProps.GetMethodKeepsCallers | Class2GV.php:141-146 | `getMethod` removes no caller from `methodsList`. |
| DecomposeProps.DecomposeFromKeepsCallers | Class2GV.php:157-167 | Neither does the top-level loop. |
| DecomposeProps.ResumeAfterKeepsCallers | Class2GV.php:165-167 | Nor the rest of the pass after a declaration. |
| DecomposeProps.EarlierCallersSurvive | Class2GV.php:151-152 | Every caller that an earlier run left in `methodsList` is still there after `decomposeClass`. |
| DecomposeProps.SecondRunCanLoseTypes | Class2GV.php:151-152 | So a run on a used object can leave a callee without a type: the tables are then not well formed. |
| DecomposeProps.NextNonWhitespaceLocal | Class2GV.php:136-139 | The name search reads only the tokens it passes. |
| DecomposeProps.FindOpenBraceLocal | Class2GV.php:60-66 | The brace search reads only the tokens it passes. |
| DecomposeProps.GetMethodLocal | Class2GV.php:134-147 | `getMethod` reads only the tokens after `function` and before where it leaves the cursor. |
| DecomposeProps.DecomposeFromLocal | Class2GV.php:157-167 | The pass from a position reads only the tokens from that position on. |
| DecomposeProps.ResumeAfterLocal | Class2GV.php:165-167 | The rest of the pass after a declaration ending at p reads only the tokens after p. |
| DecomposeProps.TokenAfterBodyIgnored | Class2GV.php:162-167 | The token right after a successfully scanned body is never inspected: replacing it by any token changes nothing. |
| DecomposeProps.GetMethodDeclares | Class2GV.php:141-146 | `getMethod` registers the name after `function` with the pending type, replacing any earlier "inherited". The body scan keeps every other existing type and every other caller's list. |
| DecomposeProps.SkipPlainTokens | Class2GV.php:157-167 | Top-level tokens that are neither `function` nor a visibility keyword change nothing. |
| DecomposeProps.PendingVisibility | Class2GV.php:156-166 | A visibility keyword stays pending across other tokens, property declarations included. The next `function` is read with it. |
| DecomposeProps.NoFunctionLeft | Class2GV.php:157-167 | With no `function` token left, the pass ends successfully and leaves the tables as they are. |
| DecomposeProps.PlainDeclaration | Class2GV.php:136-145 | For `function name() {`, the name is read and the body scan starts at the `{`. |
| ScanExamples.FirstOfAdjacent | Class2GV.php:134-147 | In `function a(){}function b(){}`, the first declaration registers `a` with an empty body and stops just after its `}`. |
| ScanExamples.AdjacentDeclarationSkipped | Class2GV.php:162-167 | In that class, `b` is never declared: the `function` right after `a`'s `}` is skipped. |
| ScanExamples.RestOfAdjacent | Class2GV.php:157-167 | From the token after that `function`, the pass finds nothing more. |
| ScanExamples.MissingBody | Class2GV.php:134-147 | `function f();` registers `f` but finds no `{`; this is where the source never returns. |
| ScanExamples.UnclosedBody | Class2GV.php:128-131 | `function f(){ {` ends with "Bad brace balance!". |
| ScanExamples.PropertyKeywordCarriesOver | Class2GV.php:156-166 | In `private $x; function f(){}`, `f` is typed "private" by the property's keyword. |
| ScanExamples.CallingBody | Class2GV.php:91-128 | The body `{ $this->callee(); }` records one call to callee and ends just after its `}`. |
| ScanExamples.AccessingBody | Class2GV.php:91-128 | The body `{ $this->property; }` records one access to property and ends just after its `}`. |
| ScanExamples.KeywordThenFunction | Class2GV.php:159-166 | A visibility keyword, whitespace, then `function`: the declaration is read with the keyword's text. |
| ScanExamples.CallingMethod | Class2GV.php:149-167 | In `public function a(){ $this->b(); } private function b(){ $this->x; } `, the first declaration types a "public" and records its call to b. The pass then goes on after the whitespace that follows a's `}`. |
| ScanExamples.AccessingMethod | Class2GV.php:157-167 | The second declaration types b "private", records b's access to x, and ends the pass successfully. |
| ScanExamples.CallThenAccessTables | Class2GV.php:110-143 | Those updates leave a calling b, b typed "private" (its declaration replaces the "inherited" the call gave it) with no callees, and x read by b. |
| ScanExamples.CallThenAccessRecorded | Class2GV.php:149-168 | The whole run of that class ends successfully with exactly those tables. |

## Left out

- The PHP lexer `token_get_all` (Class2GV.php:154) is not part of this model. The token sequence is an input to `DecomposeClass`, and token ids other than the ones the scanner tests are one `Other` case.
- File I/O (`file_exists`, `file_get_contents`), DOT text generation (`setupNodeShapes`, `formatNodes`, `formatVariables`, `makeGV`) and shelling out to the renderer (`createSVG`) are output and I/O, so they are not modelled.
- The public wrapper `__construct`, `convert` and `showVariables` only stores parameters and calls the private steps, so it is not modelled.
- Analyzer.Class2GV.FindOpenMethodBrace: when no `{` follows, the source loops forever. The model returns false with the pointer past the end, and the scans report `NoOpeningBrace`.
- Tables are Dafny maps, so PHP arrays' key insertion order, which only shows in the DOT output, is not modelled.
- PHP turns integer-like string keys into integer keys and compares numeric strings loosely in `in_array`. Method and property names are identifiers, so this never applies, and names compare as plain strings.
- `$token[1]` on a bare one-character string is `""`; on `false` past the end it is `null` (with a warning), which PHP turns into the key `""` at Class2GV.php:142-143. `NameAt` gives `""` in both cases, the key the source ends up using; the warnings are not modelled.
- A bare one-character token is taken as truthy in the loop conditions. `token_get_all` never returns `"0"` as a bare character, since digits lex as T_LNUMBER.
- The "Bad brace balance!" exception is modelled as a status that ends the pass. Exception propagation across the caller is not modelled.
