# Exam question segmentation, modelled in Dafny

The repository is a set of scripts that turn Mongolian-language mathematics
exams into question records. The source is PDF, Word, HTML or Markdown
text. The records are multiple-choice questions numbered 1 to 36, each with
up to five lettered options and a points value taken from a fixed table,
and fill-in questions labelled by a letter, each made of numbered parts
worth five points. The records are then uploaded to a document store.
Every script scans a flat stream of words, lines or text nodes. It
recognises where a question starts, where its text stops and where its
options or parts begin, and builds the records from those boundaries.
Beside the extractors there are converters: document to Markdown,
document to HTML, and a command-line front end that picks a converter.

This project models those scanners and converters, script by script. Each
script has its own Dafny module:

- Shared pieces are in their own modules:
  - `JsText`: the JavaScript string primitives the scripts rely on (`trim`, `split`, `\s`, UTF-16 `length`, case mapping).
  - `HtmlText`: tag stripping and entity handling.
  - `NodePath`: Node's `path.extname`, and the last path component that `path.basename` returns when it is given no extension argument.
  - `Points`: the points tables.
  - `PartPattern`: the `(N)` part pattern.
  - `WordSegments`: the word-stream segmentation shared by the smart and comprehensive HTML extractors.
  - `Wrappers`: the `Option` type and sequence helpers (`ToSeq`, `Somes`, `FlatMap`).
- Pure logic is written as datatypes, functions and lemmas.
- Scripts whose loops update local variables have methods with loop invariants. Each method is proved equal to the function that specifies it.
- Extractor objects whose methods push records and bump counters are classes. Their fields are updated under `modifies` clauses.

Each regular expression the scripts use is written out as a scanner. The
scanner follows JavaScript's backtracking order: greedy quantifiers take
the longest run, and lazy groups stop at the first place where the rest
of the pattern matches. `\s` is JavaScript's whitespace and line
terminator set. `.length` counts UTF-16 code units. Where the code and
the documented record format differ, the model follows the code:

- The minimum text length is 10 code units in some scripts and 5 in others.
- A question with fewer options than expected is kept as it is, without any flag.
- Record keys are the ones each script builds.

The lemmas state what the scripts promise:

- every record satisfies its script's shape;
- options and parts keep document order;
- points agree with the table;
- counters equal the number of records of each kind;
- HTML that a converter writes reads back as the lines it came from;
- the blocks a converter opens are all closed.

## Model

| member | source | states |
|---|---|---|
| Points.TablePoints | simple_html_extractor.js:84-87 | the inline points chain of the extractors always yields 1, 2 or 3 |
| Points.DeterminePoints | services/anthropicService.js:422-427 | `determinePoints` yields 1, 2 or 3, and 2 for every number above 36 |
| Points.SplitPoints | services/aiOnlyExtractor.js:389 | the chain used for split pieces yields 1, 2 or 3 |
| Points.TablesAgree | services/anthropicService.js:422-427 | on numbers 1..36 the three point tables agree: 1 up to 8, 2 up to 28, 3 up to 36 |
| Points.PointsNonDecreasing | services/anthropicService.js:422-427 | within 1..36 a later question never scores fewer points |
| Points.TablesDifferAbove36 | services/anthropicService.js:422-427 | above 36 the inline chain gives 1, `determinePoints` gives 2 and the split chain gives 3 |
| NodePath.Extname | convert_to_html.js:33 | `path.extname` is empty or a dot followed by no `/` and no further dot, ending the last path component and shorter than it |
| NodePath.ExtnameOfName | convert_to_html.js:33 | a plain file name `name.ext` has the extension `.ext` |
| NodePath.HiddenFileHasNoExtension | convert_to_html.js:33 | a name whose only dot is its first character has no extension |
| JsText.Trim | smart_html_extractor.js:62 | `trim()` leaves no whitespace at either end and never lengthens the text |
| JsText.TrimDropsOnlySpaces | smart_html_extractor.js:62 | `trim()` returns a slice of its input, and what it drops on either side is whitespace |
| JsText.TrimIdempotent | smart_html_extractor.js:62 | trimming twice equals trimming once |
| JsText.CollapseSpaces | smart_html_extractor.js:61 | `replace(/\s+/g, ' ')` leaves no run of two whitespace characters, keeps the text non-empty and keeps whether it starts and ends with whitespace |
| JsText.Normalize | smart_html_extractor.js:61-62 | collapsing then trimming leaves no whitespace run and no outer whitespace |
| JsText.NormalizeIdempotent | smart_html_extractor.js:61-62 | normalising twice equals normalising once |
| JsText.Split | convert_to_html.js:108 | `split(sep)` yields at least one piece, and no piece holds the separator |
| JsText.JoinSplit | convert_to_html.js:108 | joining the pieces of `split(sep)` with `sep` gives the text back |
| JsText.SplitOnSpaceRuns | html_to_firebase.js:93 | `split(/\s+/)` yields at least one piece, and no piece holds whitespace |
| JsText.NatToString | html_to_firebase.js:125 | a printed number is a non-empty run of digits |
| JsText.ParsePrinted | html_to_firebase.js:125 | parsing a printed number gives the number back |
| HtmlText.ReplaceTagsLeavesNoTag | smart_html_extractor.js:60 | after `replace(/<[^>]*>/g, rep)` with a replacement free of `<` and `>`, no `<` that remains has a `>` after it |
| HtmlText.StripTags | html_parser_extractor.js:287-290 | `stripHTML` output has no complete tag, no whitespace run and no outer whitespace |
| HtmlText.RemoveBlocks | smart_html_extractor.js:58-59 | removing `<script>`/`<style>` blocks never lengthens the text |
| HtmlText.RemoveBlocksKeeps | smart_html_extractor.js:58-59 | text with no `<` passes through block removal unchanged |
| HtmlText.ExtractTextFromHtml | smart_html_extractor.js:55-63 | `extractTextFromHTML` output has no complete tag, no whitespace run and no outer whitespace |
| HtmlText.ReplaceEntities | simple_html_extractor.js:47 | replacing `&…;` entities by a space never lengthens the text |
| HtmlText.ReplaceEntitiesKeeps | simple_html_extractor.js:47 | text with no `&` is left as it is |
| HtmlText.JoinTags | comprehensive_html_css_extractor.js:358 | `replace(/>\s+</g, '><')` keeps the first character and never lengthens the text |
| HtmlText.JoinTagsCollapsed | comprehensive_html_css_extractor.js:355-360 | on collapsed text, joining tags keeps it collapsed and leaves no whitespace between `>` and `<` |
| HtmlText.CleanHtml | comprehensive_html_css_extractor.js:355-360 | `cleanAndPreserveHTML` output has no whitespace run, no outer whitespace and no whitespace between `>` and `<` |
| HtmlText.CleanHtmlIdempotent | comprehensive_html_css_extractor.js:355-360 | cleaning twice equals cleaning once |
| HtmlText.EscapeHtmlIsPerCharacter | comprehensive_html_css_extractor.js:365-372 | the five `replace` passes equal escaping each character once, so `&` introduced by a later pass is never re-escaped |
| HtmlText.UnescapeEscaped | comprehensive_html_css_extractor.js:365-372 | unescaping the escaped text gives the original back |
| HtmlText.EscapedHasNoSpecials | comprehensive_html_css_extractor.js:365-372 | the escaped text contains no `<`, `>`, `"` or `'` |
| HtmlText.EscapeValue | improved_pdf_converter.js:346-355 | `escapeHTML` of a non-string is `''`; of a string, its escape unescapes back to the string |
| PartPattern.PartMatchAt | smart_html_extractor.js:217 | a match of `\((\d+)\)\s*([^(]*?)(?=\(\d+\)|$)` at a position has a non-empty digit label, a capture without `(`, and ends at the end of the text or at the next `(N)` label |
| PartPattern.NextPartMatch | smart_html_extractor.js:220 | the next `exec` match from `lastIndex` ends strictly after it, with a digit label and a capture without `(` |
| PartPattern.ExtractParts | smart_html_extractor.js:215-231 | the `exec` loop and its length filter yield exactly the kept parts of the successive matches |
| PartPattern.KeptPartsShape | smart_html_extractor.js:220-231 | every kept part has a non-empty digit label, a trimmed text longer than five code units without `(`, and 5 points |
| PartPattern.FivePerPart | smart_html_extractor.js:249 | `parts.length * 5` equals the sum of the kept parts' points |
| WordSegments.QuestionTextEnd | smart_html_extractor.js:86-110 | the question text stops at the first `а.`–`д.` token, `А.`/`Б.`/`В.` token, or `N.` token with 1 <= N <= 40 other than the open number, and at no token before it |
| WordSegments.OptionTextEnd | smart_html_extractor.js:127-147 | option text stops at the first option marker, `N.` token of any value or fill-in header, and at no token before it |
| WordSegments.FillInTextEnd | smart_html_extractor.js:203-213 | fill-in text stops at the first `А.`/`Б.`/`В.` token and at no token before it |
| WordSegments.FindWord | smart_html_extractor.js:118-120 | `findIndex` returns the first index at or after the bound holding the target, or none when no such index exists |
| WordSegments.OptionFor | smart_html_extractor.js:116-155 | an option, when found, carries the letter looked for and a trimmed text longer than two code units |
| WordSegments.OptionsFor | smart_html_extractor.js:113-156 | the option loop yields at most one option per letter |
| WordSegments.OptionsForShape | smart_html_extractor.js:149-154 | every option found has one of the letters looked for and a trimmed text longer than two |
| WordSegments.OptionsForOrdered | smart_html_extractor.js:114-116 | looked for in а..д order, the options come out with strictly increasing letters |
| WordSegments.McRecordAt | smart_html_extractor.js:73-181 | the record an index pushes, when there is one, is a multiple-choice record |
| WordSegments.McRecordShape | smart_html_extractor.js:75-80 | only an index holding `N.` with 1 <= N <= 40 opens a record, which carries N, id `mc_N`, one point and the shape below |
| WordSegments.OnlyQuestionNumbersOpen | smart_html_extractor.js:75-80 | an index whose token is not `N.` with 1 <= N <= 40 pushes nothing |
| WordSegments.McUpToShape | smart_html_extractor.js:159-176 | every pushed multiple-choice record has a number 1..40, one point, a trimmed text longer than ten, and at most five options in а..д order each longer than two |
| WordSegments.McUpToExactly | smart_html_extractor.js:73-182 | the pushed records are exactly those of the visited indices that open one, at most one per index, in index order |
| WordSegments.FillInForShape | smart_html_extractor.js:194-255 | a pushed fill-in record carries its letter, a trimmed text longer than ten, kept parts each worth 5 and points equal to 5 × parts |
| WordSegments.FillInUpToShape | smart_html_extractor.js:191-256 | the fill-in loop pushes at most one record per letter of А, Б, В, in that order, each of the fill-in shape |
| WordSegments.CountsAddUp | smart_html_extractor.js:178 | the multiple-choice count plus the fill-in count equals the number of records |
| WordSegments.CountsPush | smart_html_extractor.js:253 | pushing a record bumps exactly the count of its kind |
| WordSegments.CountAllMultipleChoice | smart_html_extractor.js:166-178 | a list of multiple-choice records counts each as multiple choice and none as fill-in |
| WordSegments.CountAllFillIn | smart_html_extractor.js:241-253 | a list of fill-in records counts each as fill-in and none as multiple choice |
| WordSegments.OptionForIntended | smart_html_extractor.js:118-120 | the option search started at the token that ended the question text: a found option has the letter and a trimmed text longer than two |
| WordSegments.EndingMarkerSkipped | smart_html_extractor.js:118-120 | the search as written, from the token that ended the question text, equals the intended search started one token later; the intended one finds the option at that token exactly when its text is long enough |
| WordSegments.FirstOptionLost | smart_html_extractor.js:118-120 | on the words `а. four` the search as written finds no option `а`, while the intended search finds `а` with text `four` |
| WordSegments.ScanQuestionText | smart_html_extractor.js:82-110 | the inner `while` stops at `QuestionTextEnd` and its text is the words before it, each followed by a space |
| WordSegments.ScanOptionText | smart_html_extractor.js:123-147 | the option `while` stops at `OptionTextEnd` and its text is the words before it, each followed by a space |
| WordSegments.ScanFillInText | smart_html_extractor.js:199-213 | the fill-in `while` stops at `FillInTextEnd` and its text is the words before it, each followed by a space |
| WordSegments.FindWordFrom | smart_html_extractor.js:196 | the `findIndex` loop returns the first index at or after the bound holding the target |
| WordSegments.FindOption | smart_html_extractor.js:117-155 | one turn of the option loop yields the option `OptionFor` describes |
| WordSegments.CollectOptions | smart_html_extractor.js:113-156 | the `for (const letter of optionLetters)` loop yields the options of а..д in that order |
| WordSegments.QuestionAt | smart_html_extractor.js:74-181 | one turn of the outer loop yields the record `McRecordAt` describes |
| WordSegments.FillInAt | smart_html_extractor.js:194-255 | one fill-in letter yields the record `FillInFor` describes |
| SmartHtmlExtractor.Extractor.constructor | smart_html_extractor.js:11-15 | a new extractor has no records and both counters at zero |
| SmartHtmlExtractor.Extractor.Push | smart_html_extractor.js:166-178 | a push appends the record and bumps the counter of its kind only |
| SmartHtmlExtractor.Extractor.VisitIndex | smart_html_extractor.js:73-182 | one turn of the outer loop appends the record of that index, if any, and counts it |
| SmartHtmlExtractor.Extractor.ExtractMultipleChoiceQuestions | smart_html_extractor.js:68-183 | the records appended are those of every index of `text.split(' ')`, in order, and the multiple-choice counter grows by their number |
| SmartHtmlExtractor.Extractor.VisitLetter | smart_html_extractor.js:194-256 | one letter appends its fill-in record, if any, and counts it |
| SmartHtmlExtractor.Extractor.ExtractFillInQuestions | smart_html_extractor.js:188-257 | the records appended are those of А, Б, В in turn, and the fill-in counter grows by their number |
| SmartHtmlExtractor.Extractor.ExtractQuestions | smart_html_extractor.js:24-32 | from a fresh extractor, the records are the multiple-choice then the fill-in records of the page's normalised text, and the two counters add up to their number |
| ComprehensiveExtractor.StyleMatchAt | comprehensive_html_css_extractor.js:65 | a match of `<style[^>]*>([\s\S]*?)<\/style>` at a position ends after it, and its capture holds no `</style>` |
| ComprehensiveExtractor.NextStyleMatch | comprehensive_html_css_extractor.js:69 | the next `exec` match from `lastIndex` ends strictly after it, and its capture holds no `</style>` |
| ComprehensiveExtractor.StyleInnersHaveNoClose | comprehensive_html_css_extractor.js:65-71 | no collected block holds a closing `</style>`: each is the text of one block |
| ComprehensiveExtractor.BlocksAreJoined | comprehensive_html_css_extractor.js:70 | the blocks, each followed by a blank line, are the blocks joined by blank lines plus one more blank line |
| ComprehensiveExtractor.CollectStyles | comprehensive_html_css_extractor.js:66-71 | the `exec` loop builds every block's text in document order, each followed by a blank line |
| ComprehensiveExtractor.Extractor.constructor | comprehensive_html_css_extractor.js:12-18 | a new extractor has no records, no CSS and both counters at zero |
| ComprehensiveExtractor.Extractor.ExtractCssStyles | comprehensive_html_css_extractor.js:63-75 | `extractedCSS` becomes the trimmed blocks text; the records and counters are unchanged |
| ComprehensiveExtractor.Extractor.Push | comprehensive_html_css_extractor.js:182-194 | a push appends the record and bumps the counter of its kind only, leaving the CSS unchanged |
| ComprehensiveExtractor.Extractor.VisitIndex | comprehensive_html_css_extractor.js:113-198 | one turn of the outer loop appends the record of that index, if any, and counts it |
| ComprehensiveExtractor.Extractor.ExtractMultipleChoice | comprehensive_html_css_extractor.js:108-199 | the records appended are those of every index of `text.split(' ')`, in order, with format `HTML_WITH_CSS` |
| ComprehensiveExtractor.Extractor.VisitLetter | comprehensive_html_css_extractor.js:210-264 | one letter appends its fill-in record, if any, and counts it |
| ComprehensiveExtractor.Extractor.ExtractFillIn | comprehensive_html_css_extractor.js:204-265 | the records appended are those of А, Б, В in turn, and the fill-in counter grows by their number |
| ComprehensiveExtractor.Extractor.ExtractQuestions | comprehensive_html_css_extractor.js:31-40 | from a fresh extractor, the CSS is the trimmed style blocks, the records are the multiple-choice then fill-in records of the page's text, and the counters add up |
| SimpleHtmlExtractor.RunEnd | simple_html_extractor.js:117-123 | a run of words stops at the first `N.` token or `A.`–`E.` token before the window's end, and at no word before it |
| SimpleHtmlExtractor.OptionTextNonEmpty | simple_html_extractor.js:131 | a non-empty option text means the word right after the letter exists and is neither a letter nor a number token |
| SimpleHtmlExtractor.CollectOptionText | simple_html_extractor.js:160-175 | the `for` loop of `collectOptionText` returns the trimmed words after the letter, at most 19 of them, up to the next letter or number token |
| SimpleHtmlExtractor.VisitWord | simple_html_extractor.js:118-148 | one turn of the look-ahead loop changes the mode, text and options as one step of the scan, and says whether it breaks |
| SimpleHtmlExtractor.CollectQuestionFromWords | simple_html_extractor.js:111-155 | the look-ahead loop over at most 99 words returns what the scan describes |
| SimpleHtmlExtractor.ScanOptions | simple_html_extractor.js:126-148 | at most five options are collected, each with a letter A–E and a non-empty text |
| SimpleHtmlExtractor.ScanAfterOptions | simple_html_extractor.js:126-143 | once an option letter has been seen, no later word is added to the question text |
| SimpleHtmlExtractor.ScanQuestionText | simple_html_extractor.js:117-143 | the question text is exactly the words from the start up to the first number token, option letter or window end |
| SimpleHtmlExtractor.CollectShape | simple_html_extractor.js:111-155 | `collectQuestionFromWords` returns the trimmed words before the first stopping token within the 99-word window, and at most five well-formed options |
| SimpleHtmlExtractor.McAt | simple_html_extractor.js:70-105 | the record an index pushes, when there is one, is a multiple-choice record |
| SimpleHtmlExtractor.McAtShape | simple_html_extractor.js:74-100 | a pushed record has a number 1..36, points 1/2/3 by the ranges 1–8/9–28/29–36, a text longer than five and at most five options |
| SimpleHtmlExtractor.RegexMcUpToShape | simple_html_extractor.js:64-106 | every record the loop pushes has that shape |
| SimpleHtmlExtractor.FillSubs | simple_html_extractor.js:184 | every match of `2\.([123])\.` yields a digit 1, 2 or 3 |
| SimpleHtmlExtractor.PlaceholderPointsAddUp | simple_html_extractor.js:195-200 | a placeholder's part points 3 + 2 + 2 add up to its total of 7 |
| SimpleHtmlExtractor.Placeholders | simple_html_extractor.js:187-207 | one placeholder per match, in match order |
| SimpleHtmlExtractor.RegexText | simple_html_extractor.js:46-48 | after tags and entities become spaces and the text is normalised, it has no whitespace run and no outer whitespace |
| SimpleHtmlExtractor.RegexTextOfPlainText | simple_html_extractor.js:46-48 | text with neither `<` nor `&` is only normalised |
| SimpleHtmlExtractor.Extractor.constructor | simple_html_extractor.js:9-11 | a new extractor has no records |
| SimpleHtmlExtractor.Extractor.VisitIndex | simple_html_extractor.js:70-105 | one turn of the loop appends the record of that index, if any |
| SimpleHtmlExtractor.Extractor.ExtractMultipleChoice | simple_html_extractor.js:64-106 | the records appended are those of every index of `text.split(' ')`, in order |
| SimpleHtmlExtractor.Extractor.ExtractFillIn | simple_html_extractor.js:180-209 | one placeholder record is appended per `2.N.` match, in order |
| SimpleHtmlExtractor.Extractor.ExtractWithRegex | simple_html_extractor.js:42-59 | the records appended are the multiple-choice records of the normalised text's words, then its placeholders |
| HtmlToFirebase.ChunksAreWords | html_to_firebase.js:91-96 | `splitIntoChunks` yields the non-empty pieces of the text between whitespace runs, each a word with no whitespace, and its final `trim` changes none of them |
| HtmlToFirebase.McAt | html_to_firebase.js:104-138 | the record a chunk pushes, when there is one, is a multiple-choice record |
| HtmlToFirebase.McAtShape | html_to_firebase.js:106-135 | a record is pushed only for a chunk `N.`, carries that N, lies in 1..36, has points 1/2/3 by the ranges 1–8/9–28/29–36, section 1 and a text longer than ten |
| HtmlToFirebase.McUpToShape | html_to_firebase.js:101-139 | every record the loop pushes has that shape, and at most one is pushed per chunk |
| HtmlToFirebase.SkipOptionGap | html_to_firebase.js:154 | the `[.)\s]+` run is maximal: every character skipped is a gap and the next one is not |
| HtmlToFirebase.LineOption | html_to_firebase.js:153-161 | the option found carries a letter of the list whose pattern matches the line with that text; none is found only when no letter's pattern matches |
| HtmlToFirebase.OptionsFromBounds | html_to_firebase.js:150-168 | at most one option per line examined and at most five in all, each with a letter A–E and a trimmed text |
| HtmlToFirebase.OptionCaptureTrimmed | html_to_firebase.js:158 | the captured option text has no outer whitespace |
| HtmlToFirebase.ExtractOptionsBounds | html_to_firebase.js:146-171 | `extractOptions` returns at most five options, no more than the lines of its ten-line window, each with a letter A–E and a trimmed text |
| HtmlToFirebase.OptionsStopAtNumber | html_to_firebase.js:164-167 | a line starting with `N.` ends the scan after it has itself been searched for an option |
| HtmlToFirebase.MatchOptionLine | html_to_firebase.js:153-161 | the `for … of` loop with its `break` finds the first letter whose pattern matches |
| HtmlToFirebase.ExtractOptions | html_to_firebase.js:146-171 | the window loop returns the options the scan describes |
| HtmlToFirebase.FillHeader | html_to_firebase.js:183 | a `2.N.` header yields a non-empty question text |
| HtmlToFirebase.PartHeader | html_to_firebase.js:219 | a `(N)` part line yields a non-empty part text |
| HtmlToFirebase.PartPointsMeaning | html_to_firebase.js:225-229 | a part's points are the number in the leftmost `(N оноо)` of its text |
| HtmlToFirebase.FirstMentionLeftmost | html_to_firebase.js:226 | the regex search finds the leftmost `(N оноо)` |
| HtmlToFirebase.PartPointsDefault | html_to_firebase.js:225 | a text with no `(N оноо)` is worth the default 2 |
| HtmlToFirebase.NoMention | html_to_firebase.js:226 | the search fails exactly when no position holds a mention |
| HtmlToFirebase.MentionFound | html_to_firebase.js:226-229 | a successful search returns a mention that is really in the text |
| HtmlToFirebase.SubNumberIsNumber | html_to_firebase.js:239 | the first of the two stop tests adds nothing: a line `2.N.` also starts with `2.` |
| HtmlToFirebase.PartsFromShape | html_to_firebase.js:215-242 | at most one part per line examined, each with a non-empty text and the points its text states |
| HtmlToFirebase.FillInPartsShape | html_to_firebase.js:212-245 | `extractFillInParts` returns at most fifteen parts, each with a non-empty text and the points its text states |
| HtmlToFirebase.FillInAtShape | html_to_firebase.js:183-204 | a line yields a fill-in record exactly when it is a `2.N.` header; the record is worth 7 whatever its parts say, is in section 2, numbered N, with a non-empty text and at most fifteen parts |
| HtmlToFirebase.PartFromLine | html_to_firebase.js:217-236 | one line of the loop yields the part the scan describes |
| HtmlToFirebase.ExtractFillInParts | html_to_firebase.js:212-245 | the window loop with its `break` returns the parts the scan describes |
| HtmlToFirebase.FillInFromLine | html_to_firebase.js:180-205 | one turn of the loop yields the record of that line, if any |
| HtmlToFirebase.Extractor.constructor | html_to_firebase.js:21-24 | a new extractor has no records |
| HtmlToFirebase.Extractor.VisitChunk | html_to_firebase.js:104-138 | one turn of the loop appends that chunk's record, if any |
| HtmlToFirebase.Extractor.ExtractMultipleChoiceQuestions | html_to_firebase.js:101-140 | the records appended are those of every chunk, in order |
| HtmlToFirebase.Extractor.VisitLine | html_to_firebase.js:179-206 | one turn of the loop appends that line's record, if any |
| HtmlToFirebase.Extractor.ExtractFillInQuestions | html_to_firebase.js:176-207 | the records appended are those of every line, in order |
| HtmlToFirebase.Extractor.ExtractQuestionsFromText | html_to_firebase.js:42-56 | the page's chunks give the multiple-choice records of every chunk followed by the fill-in records of every chunk |
| ImprovedHtmlExtractor.McStopFrom | improved_html_extractor.js:59 | the lazy capture ends at the first position where the lookahead (`N.` and a space, `А.` and a space, the section-two heading, or the end) holds, and at none before |
| ImprovedHtmlExtractor.OptionScanEnd | improved_html_extractor.js:82 | the option capture runs over characters that are neither `.` nor `а`–`д` and stops at the first one that is |
| ImprovedHtmlExtractor.OptionAt | improved_html_extractor.js:82 | an option matched at a position has a text free of `.` and of `а`–`д` |
| ImprovedHtmlExtractor.FirstOption | improved_html_extractor.js:82-83 | the leftmost option match, when there is one, has such a text |
| ImprovedHtmlExtractor.TrimNoOptionChar | improved_html_extractor.js:86 | trimming keeps a text free of `.` and of `а`–`д` |
| ImprovedHtmlExtractor.OptionsForShape | improved_html_extractor.js:79-95 | at most one option per letter, in the order of the letters, each text trimmed and free of `.` and of `а`–`д` |
| ImprovedHtmlExtractor.PrependChoice | improved_html_extractor.js:81-95 | the first letter's option, if any, goes before those of the later letters and keeps that shape |
| ImprovedHtmlExtractor.CollectOptions | improved_html_extractor.js:81-95 | the `for … of` loop returns the options the letters' patterns describe |
| ImprovedHtmlExtractor.McRecord | improved_html_extractor.js:56-110 | the record of question N, when there is one, is a multiple-choice record numbered N and worth 1 |
| ImprovedHtmlExtractor.McUpToIncreasing | improved_html_extractor.js:56-111 | questions 1..n give at most n records, numbered within 1..n in strictly increasing order, each worth 1 |
| ImprovedHtmlExtractor.AppendNumbered | improved_html_extractor.js:98-108 | pushing question n's record after those of the questions below n keeps the numbers increasing |
| ImprovedHtmlExtractor.McIdsDistinct | improved_html_extractor.js:59-99 | distinct numbers give distinct search markers and distinct `mc_N` ids |
| ImprovedHtmlExtractor.FillStopFrom | improved_html_extractor.js:125 | the fill-in capture ends at the first `А.`, `Б.` or `В.` or at the end, and at nothing before |
| ImprovedHtmlExtractor.FillRecord | improved_html_extractor.js:122-176 | the record of a letter, when there is one, is a fill-in record with that letter |
| ImprovedHtmlExtractor.FillRecordShape | improved_html_extractor.js:143-173 | a fill-in record is worth five per part; each part has a text longer than five, no `(` and 5 points |
| ImprovedHtmlExtractor.FillUpToShape | improved_html_extractor.js:120-177 | one record at most per letter, in the order of the letters, each worth five per part |
| ImprovedHtmlExtractor.AppendLettered | improved_html_extractor.js:164-174 | pushing the last letter's record after those of earlier letters keeps the letters in order |
| ImprovedHtmlExtractor.CountMultipleChoice | improved_html_extractor.js:215 | the number of multiple-choice records is at most the number of records |
| ImprovedHtmlExtractor.CountFillIn | improved_html_extractor.js:216 | the number of fill-in records is at most the number of records |
| ImprovedHtmlExtractor.CountsAddUp | improved_html_extractor.js:214-216 | every record is of one kind, so the two counts add up to the number of records |
| ImprovedHtmlExtractor.CountsPush | improved_html_extractor.js:108-174 | a push adds one to the count of the record's kind and nothing to the other |
| ImprovedHtmlExtractor.QuestionFor | improved_html_extractor.js:58-97 | the loop body yields the record of question N, if any |
| ImprovedHtmlExtractor.FillInFor | improved_html_extractor.js:124-163 | the loop body with its `exec` loop over the parts yields the record of the letter, if any |
| ImprovedHtmlExtractor.Extractor.constructor | improved_html_extractor.js:11-15 | a new extractor has no records and both counters at 0 |
| ImprovedHtmlExtractor.Extractor.Push | improved_html_extractor.js:98-174 | a push appends the record and keeps each counter equal to the number of records of its kind |
| ImprovedHtmlExtractor.Extractor.VisitNumber | improved_html_extractor.js:56-111 | one turn appends question n's record, if any, keeping the counters right |
| ImprovedHtmlExtractor.Extractor.ExtractMultipleChoiceHtml | improved_html_extractor.js:53-112 | the records appended are those of questions 1 to 40, in order |
| ImprovedHtmlExtractor.Extractor.VisitLetter | improved_html_extractor.js:122-177 | one turn appends the letter's record, if any, keeping the counters right |
| ImprovedHtmlExtractor.Extractor.ExtractFillInHtml | improved_html_extractor.js:117-178 | the records appended are those of А, Б and В, in order |
| ImprovedHtmlExtractor.Extractor.ExtractQuestions | improved_html_extractor.js:26-32 | the multiple-choice records, then the fill-in records, with the two counters adding up to the number of records |
| HtmlParserExtractor.Marker | html_parser_extractor.js:104-224 | the marker the patterns look for is the identifier followed by a dot |
| HtmlParserExtractor.TagRunEnd | html_parser_extractor.js:184-224 | the leading `(<[^>]*>)*` run ends at or after where it starts, within the text |
| HtmlParserExtractor.HeadEnd | html_parser_extractor.js:184-224 | a match starting at a position has its capture begin at or after it, within the text |
| HtmlParserExtractor.FirstHead | html_parser_extractor.js:188-228 | the match found starts at or after the search start and has its capture begin where the pattern puts it |
| HtmlParserExtractor.McStopFrom | html_parser_extractor.js:184 | the lazy capture ends at the first position where the lookahead (`N.` and a space, `А.` and a space, the section-two heading, or the end) holds, and at none before |
| HtmlParserExtractor.OptionAEndsSection | html_parser_extractor.js:184-201 | an option `а.` with whitespace after it ends the section that holds it (the case-insensitive `А\.\s` lookahead matches it), so the section is never longer than the text before that option |
| HtmlParserExtractor.OptionAStops | html_parser_extractor.js:184-185 | the lazy capture stops no later than such an option |
| HtmlParserExtractor.McStopFromAtMost | html_parser_extractor.js:184 | the lazy capture ends no later than any stop after its start |
| HtmlParserExtractor.OptionMarkerFrom | html_parser_extractor.js:194 | the search for `[а-д]\.` stops at the first marker and passes none |
| HtmlParserExtractor.BeforeOptionMarker | html_parser_extractor.js:194 | `split(/[а-д]\./)[0]` is the prefix of the section before its first option marker, or all of it when there is none |
| HtmlParserExtractor.OptionScanEnd | html_parser_extractor.js:201 | the option capture runs over characters that are not `а`–`д` in either case and stops at the first one that is |
| HtmlParserExtractor.OptionAt | html_parser_extractor.js:201 | an option matched at a position has a text with no option letter |
| HtmlParserExtractor.FirstOption | html_parser_extractor.js:201-202 | the leftmost option match, when there is one, has such a text |
| HtmlParserExtractor.FoundOption | html_parser_extractor.js:202-207 | a letter gives at most one option |
| HtmlParserExtractor.TrimNoOptionLetter | html_parser_extractor.js:205 | trimming keeps a text free of option letters |
| HtmlParserExtractor.OptionsFoundShape | html_parser_extractor.js:198-208 | at most one option per letter, in the order of the letters, each trimmed and free of option letters |
| HtmlParserExtractor.PrependOption | html_parser_extractor.js:200-208 | the first letter's option, if any, goes before those of the later letters and keeps that shape |
| HtmlParserExtractor.OptionDivs | html_parser_extractor.js:205-206 | one `<div class="option">` fragment per option found |
| HtmlParserExtractor.OptionDivsAppend | html_parser_extractor.js:206 | the fragments of two runs of options are the fragments of each, one after the other |
| HtmlParserExtractor.McContentOf | html_parser_extractor.js:179-214 | a question's content, when its pattern matches, has at most five option fragments |
| HtmlParserExtractor.AtMostFiveOptions | html_parser_extractor.js:198 | the five option letters give at most five options |
| HtmlParserExtractor.OptionsHtmlStep | html_parser_extractor.js:200-208 | one turn of the loop adds the fragment of that letter's option, if any |
| HtmlParserExtractor.OptionHtmlFor | html_parser_extractor.js:201-207 | the loop body yields the fragment of the letter when its option is found |
| HtmlParserExtractor.CollectOptionsHtml | html_parser_extractor.js:197-208 | the loop returns one fragment per option found, in the order of the letters |
| HtmlParserExtractor.ExtractMultipleChoiceHtml | html_parser_extractor.js:179-214 | `extractMultipleChoiceHTML` returns nothing when the pattern fails, otherwise the cleaned text before the options and the option fragments |
| HtmlParserExtractor.FillStopFrom | html_parser_extractor.js:224 | the fill-in capture ends at the first `А.`, `Б.` or `В.` (either case) followed by whitespace, or at the end, and at nothing before |
| HtmlParserExtractor.LabelFrom | html_parser_extractor.js:234 | the search for `\(\d+\)` stops at the first part label and passes none |
| HtmlParserExtractor.BeforePartLabel | html_parser_extractor.js:234 | `split(/\(\d+\)/)[0]` is the prefix of the section before its first part label, or all of it |
| HtmlParserExtractor.PartDivs | html_parser_extractor.js:246-247 | one `<div class="question-part">` fragment per part kept |
| HtmlParserExtractor.FillContentParts | html_parser_extractor.js:236-249 | every fragment of a fill-in section stands for a part whose label is numeric and whose text is longer than five and holds no `(` |
| HtmlParserExtractor.ExtractFillInHtml | html_parser_extractor.js:219-255 | `extractFillInHTML` returns nothing when the pattern fails, otherwise the cleaned text before the parts and the part fragments |
| HtmlParserExtractor.StripHtml | html_parser_extractor.js:287-290 | an empty input gives ''; otherwise the result has no complete tag, no whitespace run and no outer whitespace |
| HtmlParserExtractor.StripHtmlPlain | html_parser_extractor.js:289 | on text without tags, `stripHTML` only normalises whitespace |
| HtmlParserExtractor.FivePointsEachItem | html_parser_extractor.js:147-164 | parts worth five each add up to five times their number |
| HtmlParserExtractor.McRecordShape | html_parser_extractor.js:141-157 | a multiple-choice record is worth 1, has at most five options lettered `a`, `b`, … by position, and each option's text is its fragment stripped |
| HtmlParserExtractor.McItemsShape | html_parser_extractor.js:151-157 | at most five fragments give that option shape |
| HtmlParserExtractor.FillRecordShape | html_parser_extractor.js:141-166 | a fill-in record has parts numbered 1..k by position, five points each, and is worth 5k |
| HtmlParserExtractor.QuestionRecordShape | html_parser_extractor.js:86-174 | a record exists exactly when some text node starts with the identifier and a dot; it carries that identifier and has the shape of its kind |
| HtmlParserExtractor.MissingMcSectionGivesEmptyRecord | html_parser_extractor.js:120-130 | when the section pattern fails the record is still built, with empty HTML and text, no options and 1 point |
| HtmlParserExtractor.MissingFillSectionGivesEmptyRecord | html_parser_extractor.js:120-147 | a fill-in record whose section pattern fails is empty and worth 0 |
| HtmlParserExtractor.FindQuestionInDom | html_parser_extractor.js:86-174 | the tree-walker loop with its `break` returns the record the identifier describes |
| HtmlParserExtractor.McUpToShape | html_parser_extractor.js:64-70 | at most one record per number, numbered within 1..n in increasing order, each shaped as a multiple-choice record |
| HtmlParserExtractor.AppendNumbered | html_parser_extractor.js:65-69 | pushing number n's record after those of smaller numbers keeps the numbers increasing |
| HtmlParserExtractor.FillUpToShape | html_parser_extractor.js:73-80 | at most one record per letter, in the order of the letters, each shaped as a fill-in record |
| HtmlParserExtractor.AppendLettered | html_parser_extractor.js:75-79 | pushing the last letter's record after those of earlier letters keeps the letters in order |
| HtmlParserExtractor.CountMultipleChoice | html_parser_extractor.js:307 | the number of multiple-choice records is at most the number of records |
| HtmlParserExtractor.CountFillIn | html_parser_extractor.js:308 | the number of fill-in records is at most the number of records |
| HtmlParserExtractor.CountsAddUp | html_parser_extractor.js:306-308 | the two counts add up to the number of records |
| HtmlParserExtractor.CountsPush | html_parser_extractor.js:68-78 | a push adds one to the count of the record's kind and nothing to the other |
| HtmlParserExtractor.Extractor.constructor | html_parser_extractor.js:12-16 | a new extractor has no records and both counters at 0 |
| HtmlParserExtractor.Extractor.Push | html_parser_extractor.js:67-78 | a push appends the record and keeps each counter equal to the number of records of its kind |
| HtmlParserExtractor.Extractor.VisitNumber | html_parser_extractor.js:65-69 | one turn appends number n's record, if any |
| HtmlParserExtractor.Extractor.VisitLetter | html_parser_extractor.js:75-79 | one turn appends the letter's record, if any |
| HtmlParserExtractor.Extractor.ExtractMultipleChoice | html_parser_extractor.js:64-70 | the records appended are those of numbers 1 to 40, in order |
| HtmlParserExtractor.Extractor.ExtractFillIn | html_parser_extractor.js:73-80 | the records appended are those of А, Б and В, in order |
| HtmlParserExtractor.Extractor.ExtractQuestionsFromDom | html_parser_extractor.js:57-81 | the records of numbers 1 to 40, then of А, Б, В, with the two counters adding up to the number of records |
| AnthropicService.FirstNear | services/anthropicService.js:295-297 | `find` returns the first image whose line is within two of the given line, and no earlier image is that close |
| AnthropicService.ContextLines | services/anthropicService.js:89-93 | `getImageContext` keeps exactly the lines whose index is within the radius of the given line, in order, so never more than 2·radius + 1 of them |
| AnthropicService.NormalizeOptionLabel | services/anthropicService.js:430-436 | the Cyrillic letters А–Е in either case map to A, B, C, D, E, E, anything else is upper-cased, and every letter the option pattern accepts ends up one of A–E |
| AnthropicService.DigitsSlice | services/anthropicService.js:197-201 | the digits a pattern's `(\d+)` captures are all digits |
| AnthropicService.NumberedAt | services/anthropicService.js:197-201 | a number pattern matched at a position captures a non-empty text |
| AnthropicService.FirstNumbered | services/anthropicService.js:201 | the unanchored fallback pattern fails exactly when no position holds a number, a period and text |
| AnthropicService.QuestionPattern | services/anthropicService.js:196-202 | each of the five question patterns, when it matches, captures a non-empty text |
| AnthropicService.FirstPatternFrom | services/anthropicService.js:211-215 | the first pattern that matches gives a non-empty text; when none matches, the fallback pattern does not either |
| AnthropicService.QuestionMatch | services/anthropicService.js:210-215 | a line no question pattern matches has no number followed by a period and text anywhere |
| AnthropicService.MatchQuestionLine | services/anthropicService.js:211-215 | the `for … of` loop with its `break` gives the first pattern's match |
| AnthropicService.LazyEnd | services/anthropicService.js:169 | the lazy `(.+?)` ends at the first position where the lookahead holds, and never crosses a line terminator |
| AnthropicService.LazyCapture | services/anthropicService.js:169 | after the greedy `\s*`, the capture starts where backtracking puts it and is non-empty |
| AnthropicService.EmbeddedAt | services/anthropicService.js:169 | an embedded match at a position ends after it, within the line |
| AnthropicService.EmbeddedNeedsNumbered | services/anthropicService.js:169-201 | an embedded match at a position needs the fallback question pattern to match at the same position |
| AnthropicService.FirstEmbedded | services/anthropicService.js:172 | the global `exec` search moves forward on each match |
| AnthropicService.FirstTrailingNumber | services/anthropicService.js:177 | the search for a trailing `\s+\d+[.．]` finds a position where one starts |
| AnthropicService.RemoveTrailingNumber | services/anthropicService.js:177 | removing the trailing number keeps a prefix of the text |
| AnthropicService.KeptEmbedded | services/anthropicService.js:173-185 | a match is kept only with a positive number and a cleaned text longer than ten |
| AnthropicService.EmbeddedFromStep | services/anthropicService.js:172-186 | one turn of the `exec` loop adds the kept match and resumes after it |
| AnthropicService.DetectEmbeddedQuestions | services/anthropicService.js:165-188 | `detectEmbeddedQuestions` returns the kept embedded matches, in order |
| AnthropicService.NoEmbeddedFrom | services/anthropicService.js:169-172 | the embedded search finds nothing when the fallback question pattern matches nowhere |
| AnthropicService.EmbeddedBranchUnreachable | services/anthropicService.js:210-296 | the embedded branch of the section-one scan never fires: it is tried only on lines no question pattern matched, and on those the embedded pattern finds nothing |
| AnthropicService.SearchNumberPeriod | services/anthropicService.js:258 | `line.search(/\d+[.．]/)` gives -1 or a position in the line |
| AnthropicService.Markers | services/anthropicService.js:145-152 | one heading kind per line |
| AnthropicService.MarkersAt | services/anthropicService.js:145-152 | the heading kind of each line is that line's own |
| AnthropicService.SectionLine | services/anthropicService.js:143-159 | one turn of the `forEach` updates the active section by the line's heading and appends the line with a newline to the active section only |
| AnthropicService.SectionLineAt | services/anthropicService.js:143-159 | after line i the active section and both texts are those of the first i + 1 lines |
| AnthropicService.SplitIntoSections | services/anthropicService.js:121-162 | `splitIntoSections` returns the two texts the section lines describe |
| AnthropicService.SectionLines | services/anthropicService.js:143-159 | the `forEach` loop builds both texts line by line |
| AnthropicService.NoMarkerNoSection | services/anthropicService.js:140-159 | until a heading line, no line goes to either section |
| AnthropicService.ActiveAfterMarker | services/anthropicService.js:145-152 | after a heading line, and until the next one, the active section is the one it opened |
| AnthropicService.LinesFollowMarker | services/anthropicService.js:154-158 | the section a heading opens receives every line up to the next heading, each with a newline |
| AnthropicService.SectionTextStep | services/anthropicService.js:154-158 | a line goes only to the active section |
| AnthropicService.WithNewlinesStep | services/anthropicService.js:155 | each line is added with a newline after it |
| AnthropicService.OtherSectionUnchanged | services/anthropicService.js:154-158 | the other section does not change from a heading line until the next one |
| AnthropicService.OptionLine | services/anthropicService.js:242-243 | an option line's letter is one the pattern accepts |
| AnthropicService.ImageDescription | services/anthropicService.js:439-450 | a description exists exactly when an image list is non-empty, and option images take precedence |
| AnthropicService.RenderOption | services/anthropicService.js:412 | an option renders as its label, `) ` and its text |
| AnthropicService.Finalize | services/anthropicService.js:409-420 | the record keeps the question's number, text and points; its options are rendered `L) text` with the labels beside them in the same order; it has an image exactly when an image list is non-empty |
| AnthropicService.Classify1 | services/anthropicService.js:210-290 | a question pattern wins, then the option pattern, then a non-blank line not starting with A–E; a text line never carries embedded questions |
| AnthropicService.Classes1 | services/anthropicService.js:209 | one kind per line |
| AnthropicService.Classes1At | services/anthropicService.js:209 | each line's kind is that line's own |
| AnthropicService.NearImages | services/anthropicService.js:294-297 | one image lookup per line |
| AnthropicService.NearImagesAt | services/anthropicService.js:294-297 | each line's lookup is that line's own |
| AnthropicService.CloseAtEmbedded | services/anthropicService.js:254-290 | the embedded branch closes the open question and pushes the embedded questions after it |
| AnthropicService.SaveEmbedded | services/anthropicService.js:273-285 | the loop pushes one record per embedded question, in order |
| AnthropicService.ReadSection1Line | services/anthropicService.js:210-292 | the branches a line goes through give the step its kind describes |
| AnthropicService.ScanLine1 | services/anthropicService.js:209-309 | one turn of the `forEach` is the line's step followed by the image lookup |
| AnthropicService.ScanLine1At | services/anthropicService.js:209-309 | after line i the scan state is that of the first i + 1 lines |
| AnthropicService.ScanLines1 | services/anthropicService.js:209-310 | the `forEach` loop gives the scan state of all lines |
| AnthropicService.ExtractSection1Questions | services/anthropicService.js:191-324 | `extractSection1Questions` returns the records the scan of the section's lines describes |
| AnthropicService.FinalizeFinalized | services/anthropicService.js:409-427 | a finalized open question scores by the point table, has one label per option, labels in A–E, and an image exactly when it lists one |
| AnthropicService.QuestionLineAccounted | services/anthropicService.js:218-238 | a question line saves the open question and opens one with its own number |
| AnthropicService.OptionLineAccounted | services/anthropicService.js:241-249 | an option line adds one normalised option, and only to an open question |
| AnthropicService.TextLineAccounted | services/anthropicService.js:251-289 | a text line without embedded questions only extends the open question's text |
| AnthropicService.AttachAccounted | services/anthropicService.js:299-309 | an image near the line is attached only to an open question |
| AnthropicService.ReadLineAccounted | services/anthropicService.js:210-292 | every line kind keeps the scan's invariant, adding its number when it is a question line |
| AnthropicService.Scan1AccountedStep | services/anthropicService.js:209-309 | one line keeps the invariant |
| AnthropicService.Scan1Accounted | services/anthropicService.js:209-310 | the invariant holds after every line |
| AnthropicService.ClassesClassified | services/anthropicService.js:241-290 | every option line has an accepted letter and no text line has embedded questions |
| AnthropicService.Section1Records | services/anthropicService.js:191-324 | every question line of section one yields exactly one record, in order, with that line's number; every record scores by the point table, has one label per option, every label in A–E, and an image exactly when it lists one |
| AnthropicSectionTwo.TaskAt | services/anthropicService.js:333 | a `2.N.` task line starts with `2.` and a digit and captures a non-empty text |
| AnthropicSectionTwo.TaskMatch | services/anthropicService.js:332-349 | the first of the three patterns that matches; the third accepts every line the first does, with the same capture |
| AnthropicSectionTwo.PartMatch | services/anthropicService.js:375 | a `(N)` part line captures a non-empty text |
| AnthropicSectionTwo.Classes2 | services/anthropicService.js:342 | one kind per line |
| AnthropicSectionTwo.ScanLine2 | services/anthropicService.js:342-396 | one turn of the `forEach` is the step the line's kind and its nearby image describe |
| AnthropicSectionTwo.Scan2Next | services/anthropicService.js:342-396 | the scan state after a line is the step of that line applied to the state before it |
| AnthropicSectionTwo.SaveLast | services/anthropicService.js:398-402 | after the loop the open question, if any, is saved last |
| AnthropicSectionTwo.ExtractSection2Questions | services/anthropicService.js:327-406 | `extractSection2Questions` returns the records the scan of the section's lines describes |
| AnthropicSectionTwo.PartTotalAppend | services/anthropicService.js:377 | the parts of two runs of records add up |
| AnthropicSectionTwo.ContinueAccounted | services/anthropicService.js:371-395 | a continuation line adds a part or text, and perhaps an image, and keeps the scan's invariant |
| AnthropicSectionTwo.TaskAccounted | services/anthropicService.js:351-369 | a task line saves the open task and opens one with its own number |
| AnthropicSectionTwo.PartAccounted | services/anthropicService.js:375-381 | a part line adds one part when a task is open, and none otherwise |
| AnthropicSectionTwo.TextAccounted | services/anthropicService.js:382-384 | a line of more text keeps the invariant |
| AnthropicSectionTwo.Step2Accounted | services/anthropicService.js:342-396 | every line keeps the invariant, adding its number when it is a task line |
| AnthropicSectionTwo.Scan2AccountedStep | services/anthropicService.js:342-396 | one line keeps the invariant |
| AnthropicSectionTwo.Scan2Accounted | services/anthropicService.js:342-396 | the invariant holds after every line |
| AnthropicSectionTwo.Section2Records | services/anthropicService.js:327-406 | every task line yields exactly one record, in order and with its number; every `(N)` line after the first task becomes exactly one part; every record is task 2 worth 7 points and has an image exactly when it lists one |
| AnthropicValidation.FixUrl | services/anthropicService.js:590-603 | an empty URL is dropped; a protocol-relative `//` URL gets `https:` in front; any other URL not starting with `http` gets the image CDN's `https://cdn.mathpix.com/` in front; an absolute one is decoded |
| AnthropicValidation.Joined | services/anthropicService.js:595-598 | a prefixed URL starts with its prefix and ends with the URL |
| AnthropicValidation.FixUrls | services/anthropicService.js:617-697 | `map(fixUrl).filter(Boolean)` keeps at most as many URLs, none empty |
| AnthropicValidation.FixUrlsFrom | services/anthropicService.js:617-697 | every kept URL is the fix of some input URL, and every non-empty fix is kept |
| AnthropicValidation.Dedupe | services/anthropicService.js:621-704 | de-duplication keeps at most as many URLs |
| AnthropicValidation.DedupeImages | services/anthropicService.js:621-629 | the loop keeps the URLs not used before, exempting reference images when asked |
| AnthropicValidation.RecordUnique | services/anthropicService.js:622-626 | one URL keeps every non-reference URL at most once and recorded, and the URL is present afterwards |
| AnthropicValidation.DedupeUnique | services/anthropicService.js:619-643 | a list's de-duplication keeps the invariant; every URL of the list ends up kept, now or before, and only URLs of the list are kept |
| AnthropicValidation.ImageLinkAt | services/anthropicService.js:650 | an image link matched at a position ends after its opening and within the text |
| AnthropicValidation.CountImageLinks | services/anthropicService.js:650 | the number of image links is bounded by the text's length |
| AnthropicValidation.FixOptions | services/anthropicService.js:648-687 | question 13 without options becomes image-based exactly when its text holds at least four image links and otherwise gets placeholders; a multiple-choice question without options gets five placeholders; questions with options, number and text never change |
| AnthropicValidation.FixSection1 | services/anthropicService.js:614-689 | one fixed question per input question |
| AnthropicValidation.FixSection2 | services/anthropicService.js:693-707 | one fixed question per input question |
| AnthropicValidation.FixListCovers | services/anthropicService.js:617-643 | fixing and de-duplicating one list keeps the invariant and loses no fixed URL |
| AnthropicValidation.CoversAppend | services/anthropicService.js:614-693 | two passes in a row compose |
| AnthropicValidation.FixItem1Covers | services/anthropicService.js:614-644 | one section-one question keeps the invariant |
| AnthropicValidation.FixSection1Covers | services/anthropicService.js:613-690 | the section-one pass keeps the invariant |
| AnthropicValidation.FixSection2Covers | services/anthropicService.js:692-707 | the section-two pass keeps the invariant |
| AnthropicValidation.ValidateImagesUnique | services/anthropicService.js:589-755 | afterwards a URL that is not a reference image appears at most once in the exam, every fixed image URL of the input is still present, and no other URL is |
| AnthropicValidation.ValidateOptions | services/anthropicService.js:647-687 | every section-one question keeps its number and text; one with options keeps them; one without options that is multiple choice or number 13 ends up with five |
| AnthropicValidation.FixSection1Options | services/anthropicService.js:614-689 | the same, question by question |
| AnthropicValidation.FixQuestion1 | services/anthropicService.js:614-688 | one turn of the section-one `forEach` gives the fixed question the function describes |
| AnthropicValidation.ValidateImageUrls | services/anthropicService.js:589-755 | `validateImageUrls` gives the exam the function describes |
| AiOnlyExtractor.CountChar | services/aiOnlyExtractor.js:280-281 | the number of matches of `/c/g` is at most the text's length |
| AiOnlyExtractor.CountCharAppend | services/aiOnlyExtractor.js:280-281 | the count of a character over two texts is the sum of the counts |
| AiOnlyExtractor.CountCharAbsent | services/aiOnlyExtractor.js:280-281 | a character that does not occur counts zero |
| AiOnlyExtractor.Closers | services/aiOnlyExtractor.js:284-286 | the loop appends exactly n closing braces |
| AiOnlyExtractor.ClosersCount | services/aiOnlyExtractor.js:284-286 | the appended braces add n `}` and no `{` |
| AiOnlyExtractor.BalanceCloses | services/aiOnlyExtractor.js:280-286 | after balancing there are at least as many `}` as `{`, exactly as many when there were fewer before, and a text already closed is left alone |
| AiOnlyExtractor.DropTrailingCommasKeeps | services/aiOnlyExtractor.js:289 | dropping trailing commas keeps every other character as many times as it occurred |
| AiOnlyExtractor.DropTrailingCommasNone | services/aiOnlyExtractor.js:289 | a text without commas goes through unchanged |
| AiOnlyExtractor.FirstIncomplete | services/aiOnlyExtractor.js:292 | the search for `:\s*"[^"]*$` finds its leftmost match and passes no other |
| AiOnlyExtractor.CloseIncompleteIdempotent | services/aiOnlyExtractor.js:292 | closing an unterminated string leaves nothing for a second pass to close |
| AiOnlyExtractor.FirstEndComma | services/aiOnlyExtractor.js:295 | the search for `,\s*$` finds its leftmost match and passes no other |
| AiOnlyExtractor.DropEndCommaKeeps | services/aiOnlyExtractor.js:295 | dropping the end comma removes a comma and whitespace only, so no other character's count changes |
| AiOnlyExtractor.ListEnd | services/aiOnlyExtractor.js:254-255 | the lazy `(.*?)\]` stops at the first `]`, crossing line ends only under the `s` flag |
| AiOnlyExtractor.ListAt | services/aiOnlyExtractor.js:254-255 | a list captured at a position holds no `]`, and no line end unless the `s` flag is set |
| AiOnlyExtractor.FirstList | services/aiOnlyExtractor.js:254-255 | `match(...)[1]` is the capture of a match at some position after the search start |
| AiOnlyExtractor.Reconstruct | services/aiOnlyExtractor.js:249-277 | a reply that already starts with its metadata root is not rebuilt |
| AiOnlyExtractor.FixCommonJSONIssues | services/aiOnlyExtractor.js:244-298 | `fixCommonJSONIssues`, with its brace loop, gives the repair as written |
| AiOnlyExtractor.FixJsonAsWrittenCloses | services/aiOnlyExtractor.js:280-295 | when the reply holds no unterminated string, the repaired text has every `{` closed |
| AiOnlyExtractor.OneOpener | services/aiOnlyExtractor.js:280-281 | a text that starts with its only `{` and holds no `}` counts one and zero |
| AiOnlyExtractor.TruncatedRooted | services/aiOnlyExtractor.js:250 | the truncated reply `{"metadata": "abc` already has its root and is not rebuilt |
| AiOnlyExtractor.TruncatedBalanced | services/aiOnlyExtractor.js:284-286 | the brace loop appends one `}` to the truncated reply |
| AiOnlyExtractor.TruncatedClosed | services/aiOnlyExtractor.js:292 | the string fix then replaces everything from the colon, that brace included |
| AiOnlyExtractor.ClosedReplyKept | services/aiOnlyExtractor.js:295 | the end-comma fix leaves the result alone, and it has an unclosed `{` |
| AiOnlyExtractor.FixJsonAsWrittenLeavesOpen | services/aiOnlyExtractor.js:284-292 | on `{"metadata": "abc` the repair as written returns `{"metadata": "incomplete"`, whose `{` is not closed |
| AiOnlyExtractor.FixJsonBalancedCloses | services/aiOnlyExtractor.js:279-295 | with the string closed before the braces are counted, every `{` of the repaired text is closed |
| AiOnlyExtractor.CountQuestionsAll | services/aiOnlyExtractor.js:300-304 | `countQuestions` is the number of questions the sections hold together |
| AiOnlyExtractor.CountQuestionsAppend | services/aiOnlyExtractor.js:300-304 | counting two lists of sections one after the other adds their counts |
| AiOnlyExtractor.MarkAt | services/aiOnlyExtractor.js:370-375 | a mark `\b(\d+)\s*[.．]` at a position has a digit run and its value, then a full stop |
| AiOnlyExtractor.MarksFrom | services/aiOnlyExtractor.js:370-375 | the global scan's first mark starts at or after the search start and ends after it starts |
| AiOnlyExtractor.MarksFromMatch | services/aiOnlyExtractor.js:370-375 | every mark the scan finds is a match where it starts |
| AiOnlyExtractor.MatchPrepend | services/aiOnlyExtractor.js:370 | a match before a list of matches extends it |
| AiOnlyExtractor.MarksFromOrdered | services/aiOnlyExtractor.js:370-375 | the marks come in order, each ending before the next begins |
| AiOnlyExtractor.OrderedPrepend | services/aiOnlyExtractor.js:370 | a mark ending before an ordered list's first extends it in order |
| AiOnlyExtractor.FirstPart | services/aiOnlyExtractor.js:387 | `split(/\b\d+\s*[.．]/)[0]` is a prefix of the text |
| AiOnlyExtractor.PartOf | services/aiOnlyExtractor.js:380-387 | a part's content is its trimmed segment and its head the trimmed text before the next mark |
| AiOnlyExtractor.Parts | services/aiOnlyExtractor.js:375-382 | `split` with a capture group read in pairs gives one part per mark, with the mark's number and its segment |
| AiOnlyExtractor.PieceOfShape | services/aiOnlyExtractor.js:379-391 | a piece carries its part's number, and the part's trimmed text is longer than 20 |
| AiOnlyExtractor.PiecesShape | services/aiOnlyExtractor.js:378-393 | at most one piece per part, each a piece of the question |
| AiOnlyExtractor.PiecesNext | services/aiOnlyExtractor.js:378-393 | one turn of the loop adds that part's piece, if any |
| AiOnlyExtractor.SplitMergedShape | services/aiOnlyExtractor.js:362-403 | a question comes back whole, or, only when its text is longer than 500 and gives at least two pieces, as those pieces |
| AiOnlyExtractor.CollectPieces | services/aiOnlyExtractor.js:376-393 | the loop over the marks keeps the pieces long enough to be questions |
| AiOnlyExtractor.DetectAndSplitMergedQuestions | services/aiOnlyExtractor.js:362-403 | `detectAndSplitMergedQuestions` gives the split the function describes |
| AiOnlyExtractor.SegmentBetweenMarks | services/aiOnlyExtractor.js:375 | each segment is exactly the text between a mark and the next one |
| AiOnlyExtractor.SplitAllKeepsCount | services/aiOnlyExtractor.js:313-318 | splitting never loses a question: each yields at least one |
| AiOnlyExtractor.KeepNewSound | services/aiOnlyExtractor.js:336-347 | the kept images are distinct, non-empty, from the question and new; the used set grows by exactly them; every non-empty URL of the question ends up used |
| AiOnlyExtractor.DistinctAppend | services/aiOnlyExtractor.js:338-345 | two distinct lists with nothing in common make a distinct list |
| AiOnlyExtractor.ImagesAccountedAppend | services/aiOnlyExtractor.js:320-358 | two passes one after the other account for the images of both |
| AiOnlyExtractor.KeepNewAccounted | services/aiOnlyExtractor.js:336-347 | one question's images are accounted for |
| AiOnlyExtractor.FixQuestionsSound | services/aiOnlyExtractor.js:320-358 | fixing a section's questions repairs each one in place and never keeps a URL twice or after an earlier use |
| AiOnlyExtractor.FixSectionSound | services/aiOnlyExtractor.js:309-359 | one section is split, then repaired, with its images accounted for |
| AiOnlyExtractor.FixSectionsSound | services/aiOnlyExtractor.js:306-360 | every section is repaired in place and the images of all are accounted for |
| AiOnlyExtractor.FixSectionsStep | services/aiOnlyExtractor.js:309-359 | one more section keeps that |
| AiOnlyExtractor.ValidateAndFixSound | services/aiOnlyExtractor.js:306-360 | every question is repaired (number and text kept, points set, options where the section needs them), no image URL appears twice anywhere, kept URLs are non-empty and from the split questions, and every non-empty one is kept |
| AiOnlyExtractor.ValidateAndFixKeepsCount | services/aiOnlyExtractor.js:306-360 | fixing never lowers the number of questions |
| AiOnlyExtractor.CountAtLeast | services/aiOnlyExtractor.js:309-318 | the first n sections keep at least their count |
| AiOnlyExtractor.KeepNewImages | services/aiOnlyExtractor.js:336-347 | the image loop gives the kept images and used set the function describes |
| AiOnlyExtractor.SplitSectionQuestions | services/aiOnlyExtractor.js:313-318 | the splitting loop gives the split questions in order |
| AiOnlyExtractor.FixSectionQuestions | services/aiOnlyExtractor.js:320-358 | the fixing loop gives the repaired questions and used set the function describes |
| AiOnlyExtractor.ValidateAndFixQuestions | services/aiOnlyExtractor.js:306-360 | the loop over the sections, sharing one used set, gives the sections the function describes |
| AiOnlyExtractor.FindSection | services/aiOnlyExtractor.js:411-424 | `find` returns the first section the test accepts, and none before it is accepted |
| AiOnlyExtractor.CategorizePartition | services/aiOnlyExtractor.js:444-457 | categorising splits the questions between the two lists by the rule, losing and adding none |
| AiOnlyExtractor.ConvertToLegacySound | services/aiOnlyExtractor.js:406-473 | the legacy lists are the questions of the first choice and first fill-in sections; only when both are empty is every question categorised. When both finds return the same section and its `questions` is an array, the two names share that array, so both lists are all the questions in order; otherwise each question lands in exactly one list |
| AiOnlyExtractor.ConvertToLegacyFormat | services/aiOnlyExtractor.js:406-473 | `convertToLegacyFormat` with its loops gives the lists the function describes, the shared-array case included |
| AiOnlyExtractor.CollectAllQuestions | services/aiOnlyExtractor.js:434-439 | the collecting loop gives every section's questions in order |
| AiOnlyExtractor.CategorizeQuestions | services/aiOnlyExtractor.js:427-457 | the categorising loop gives the lists the function describes; when the two lists are one array, every push lands in it and both show all the questions |
| FinalTest.Opening | final_test.js:72-80 | a line opens a question only when it is not a header and its leading number lies in 1..36 |
| FinalTest.ReadLine | final_test.js:69-102 | the loop body for one line, with `continue` as an early return, performs one step of the scan |
| FinalTest.ExtractSection1Questions | final_test.js:62-106 | `extractSection1Questions` returns the records the scan of the trimmed non-blank lines describes |
| FinalTest.ScanLines | final_test.js:68-103 | the loop over the lines gives the scan's records |
| FinalTest.OpenedByLater | final_test.js:75-79 | a question opened among the first n lines is still opened among the first n + 1 |
| FinalTest.AllOpenedLater | final_test.js:75-79 | the same for every saved record |
| FinalTest.OpenAccounted | final_test.js:75-80 | a line that opens a question leaves the saved records alone and opens its own |
| FinalTest.SavedRecordWell | final_test.js:86-97 | a record saved by a five-option line scores by the table and has the five options |
| FinalTest.SavedUpdate | final_test.js:93-97 | storing a well-formed record keeps every record well formed and opened |
| FinalTest.SaveAccounted | final_test.js:83-101 | a line that saves stores the open question with its five options and closes it |
| FinalTest.KeepAccounted | final_test.js:68-103 | any other line changes nothing |
| FinalTest.StepAccounted | final_test.js:68-103 | every line keeps the scan's invariant |
| FinalTest.ScanStep | final_test.js:68-103 | one more line keeps the invariant |
| FinalTest.ScanAccounted | final_test.js:68-103 | the invariant holds after every line |
| FinalTest.Section1Sound | final_test.js:62-106 | every saved record is keyed by the number of a non-header question line in 1..36, carries that line's text, scores by the 1–8 / 9–28 / 29–36 table and has all five options A–E with non-empty trimmed texts |
| FinalTest.AssertedPoints | final_test.js:171-190 | the script's own checks hold: question 1 scores 1, question 9 scores 2, question 29 scores 3 |
| FinalTest.SavesOnlyOnFiveOptions | final_test.js:83-101 | a record is saved only by an `A.` line with five options while a question is open, which closes it; once closed, other lines change nothing |
| FinalTest.OpensOnlyAtLineStartInRange | final_test.js:75-76 | a number outside 1..36 opens nothing, and neither does a number not at the start of the line |
| FinalTest.Question21Total | final_test.js:132-224 | the hard-coded parts 3 + 2 + 2 add up to the 7 points per question of section two |
| FinalTest.NextTwo | final_test.js:130 | the lazy `[^2]*?` can stop only at the first `2` after the header, or at the end |
| FinalTest.Section2 | final_test.js:126-153 | `extractSection2Questions` gives at most the record "2.1" |
| FinalTest.Section2FromFinds | final_test.js:130 | a match of the pattern contains a `2.1.` header |
| FinalTest.Section2NeedsHeader | final_test.js:130-131 | a record is produced only when the text contains a `2.1.` header |
| FinalTest.Section2MissesHeader | final_test.js:130 | on `2.1. 42` the pattern fails although the header is there: the `2` of `42` stops the lazy group and does not begin `2.N` |
| FinalTest.Section2Intended | final_test.js:129-131 | the intended pattern gives at most the record "2.1" |
| FinalTest.Section2IntendedExactly | final_test.js:129-131 | with the intended pattern the record is produced exactly when a `2.1.` header is present, and whenever the written one produces it |
| SimpleExtraction.ReadLine | simple_extraction.js:23-56 | the loop body for one line, with `continue` as an early return, performs one step of the scan |
| SimpleExtraction.ScanLines | simple_extraction.js:22-57 | the loop over the lines gives the scan's records |
| SimpleExtraction.ExtractQuestions | simple_extraction.js:15-60 | `extractQuestions` returns the records the scan of the trimmed non-blank lines describes |
| SimpleExtraction.OpenedByLater | simple_extraction.js:26-32 | a question opened among the first n lines is still opened among the first n + 1 |
| SimpleExtraction.AllOpenedLater | simple_extraction.js:26-32 | the same for every saved record |
| SimpleExtraction.SavedRecordWell | simple_extraction.js:38-49 | a record saved by a five-option line scores by the table and has the five options |
| SimpleExtraction.SavedUpdate | simple_extraction.js:45-49 | storing a well-formed record keeps every record well formed and opened |
| SimpleExtraction.StepAccounted | simple_extraction.js:22-57 | every line keeps the scan's invariant |
| SimpleExtraction.ScanStep | simple_extraction.js:22-57 | one more line keeps the invariant |
| SimpleExtraction.ScanAccounted | simple_extraction.js:22-57 | the invariant holds after every line |
| SimpleExtraction.ExtractedSound | simple_extraction.js:15-60 | every saved record is keyed by the number of some question line, of any value, carries that line's text, scores by the table and has all five options A–E |
| SimpleExtraction.AnyNumberOpens | simple_extraction.js:26-32 | any question line opens its question whatever its number, dropping an open question never saved |
| SimpleExtraction.SavesOnlyOnFiveOptions | simple_extraction.js:35-56 | only an `A.` line with exactly five options saves, under the open number, and closes the question; one with fewer leaves the question open |
| TestParser.Saved | test_parser.js:128-145 | the stored record has a trimmed text, the options copied and 1, 2 or 3 points |
| TestParser.Section.constructor | test_parser.js:60-70 | a new section holds no records |
| TestParser.Section.SaveQuestion | test_parser.js:128-145 | `saveQuestion` stores under the number a record scored 1/2/3 by the ranges 1–8 / 9–28 / 29–36 (1 otherwise), with the text trimmed and the options copied, replacing any earlier one and leaving the others alone |
| TestParser.Opening | test_parser.js:95-96 | a line opens a question only when its leading number lies in 1..36 |
| TestParser.OptionLine | test_parser.js:109 | an option line gives a letter A–E and a non-empty text |
| TestParser.ReadLine | test_parser.js:89-118 | the loop body for one line, with `continue` as an early return, performs one step of the scan |
| TestParser.ExtractSection1Questions | test_parser.js:82-125 | `extractSection1Questions` leaves the section holding the records the scan describes |
| TestParser.FiveLetterOptions | test_parser.js:98-122 | five options keyed by letters A–E use every letter |
| TestParser.SavePendingAccounted | test_parser.js:98-124 | saving the open question keeps every record kept or well formed |
| TestParser.StepAccounted | test_parser.js:88-119 | every line keeps the scan's invariant |
| TestParser.ScanAccounted | test_parser.js:88-119 | the invariant holds after every line |
| TestParser.Section1Sound | test_parser.js:82-125 | every record of the section was there before and is unchanged, or was saved by the scan: numbered 1..36, scored by the table, trimmed, with exactly the five option letters |
| TestParser.OpeningSavesAndResets | test_parser.js:96-106 | a question line in 1..36 saves the previous question only when its text is non-empty and it has exactly five options, then opens the new question with no options |
| TestParser.OptionLineSetsOneKey | test_parser.js:109-113 | an option line sets exactly its own letter, replacing what that letter held, and nothing else changes |
| TestParser.OtherLineExtends | test_parser.js:116-118 | any other line extends the open question's text by a space and the line |
| TestParser.FindFindsOccurrence | test_parser.js:41-44 | `includes` finds a marker that occurs at or after the search start |
| TestParser.PlaceholderExactly | test_parser.js:39-45 | `hasPlaceholderContent` is true exactly when one of the four markers occurs in the serialised data |
| DebugExtraction.FirstMarker | debug_extraction.js:62 | the match starts at the leftmost `[ABCDE]\.`, and none occurs before it |
| DebugExtraction.TailCaptures | debug_extraction.js:62 | the optional tails give two groups per level |
| DebugExtraction.OptCaptures | debug_extraction.js:62-63 | a line holding a marker gives the ten groups `optMatch[1..10]` |
| DebugExtraction.SkipSpacesAgain | debug_extraction.js:62 | skipping whitespace twice stops where skipping once does |
| DebugExtraction.TailNeverMatches | debug_extraction.js:62 | the tails' `\s+` cannot open where the lazy text's `\s*` already stopped, so every tail group is undefined |
| DebugExtraction.NoPairsWithoutText | debug_extraction.js:68-72 | with every text group empty or undefined no pair is built |
| DebugExtraction.WrittenPairsEmpty | debug_extraction.js:62-72 | as written, no options line ever yields a pair |
| DebugExtraction.MarkedPairs | debug_extraction.js:66-72 | the pairs are letters A–E with non-empty text, at most as many as there is room for |
| DebugExtraction.IntendedPairs | debug_extraction.js:66-72 | at most five pairs, each a letter A–E with the non-empty trimmed text up to the next marker |
| DebugExtraction.IntendedFirstPair | debug_extraction.js:66-72 | the first marker gives a pair when its text is not blank |
| DebugExtraction.CollectPairs | debug_extraction.js:67-72 | the inner loop over the groups builds the pairs the function describes |
| DebugExtraction.AddAll | debug_extraction.js:74-77 | the `forEach` stores every pair's text under its letter, later pairs winning |
| DebugExtraction.ReadLine | debug_extraction.js:34-85 | the loop body for one line, with `continue` as an early return, performs one step of the scan |
| DebugExtraction.ScanUpToNext | debug_extraction.js:33-86 | one more turn gives the scan of one more line |
| DebugExtraction.ExtractedIsSaved | debug_extraction.js:88-95 | the result is the scan's state with the open question saved |
| DebugExtraction.ExtractAsWritten | debug_extraction.js:17-95 | the script as written gives the records the scan describes |
| DebugExtraction.AddPairsLetters | debug_extraction.js:74-77 | storing pairs keeps letter keys, never removes one, and adds at least one when there are pairs |
| DebugExtraction.SavePendingWell | debug_extraction.js:47-95 | a question is saved only with at least one option, each keyed by a letter |
| DebugExtraction.StepAccounted | debug_extraction.js:33-86 | every line keeps the scan's invariant |
| DebugExtraction.ScanStep | debug_extraction.js:33-86 | one more line keeps the invariant |
| DebugExtraction.ScanAccounted | debug_extraction.js:33-86 | the invariant holds after every line |
| DebugExtraction.ExtractedWell | debug_extraction.js:17-95 | as written or as intended, every saved record has at least one option, each a letter A–E with non-empty text |
| DebugExtraction.WrittenStepEmpty | debug_extraction.js:62-78 | as written, a line never adds options and so never saves |
| DebugExtraction.WrittenNoOptions | debug_extraction.js:33-86 | as written, options are never collected |
| DebugExtraction.WrittenSavesNothing | debug_extraction.js:17-95 | as written, the script saves no question at all, whatever the input |
| DebugExtraction.IntendedSaves | debug_extraction.js:62-95 | with the intended pairs, an options line with a non-blank first text gives the open question an option, so it is saved at the next question line or the end |
| LineQuestions.LettersCount | final_test.js:118 | the option letters are five |
| LineQuestions.SubsetCard | final_test.js:86 | a subset of the letters has no more members than they do |
| LineQuestions.FiveLetters | final_test.js:86 | a set of five option letters is all of A–E |
| LineQuestions.TrimmedLines | final_test.js:64 | `split('\n').map(trim).filter(line => line)` gives non-empty trimmed lines |
| LineQuestions.QuestionLine | final_test.js:75 | a question line has a digit key at the very start, a period, then a non-empty text |
| LineQuestions.SplitFrom | final_test.js:112 | `split` with a capturing separator gives an odd number of pieces |
| LineQuestions.ConcatPrepend | final_test.js:112 | gluing two pieces before the rest |
| LineQuestions.SplitFromConcat | final_test.js:112 | gluing the pieces back together gives the text the split started from |
| LineQuestions.SplitFromMarkers | final_test.js:112 | every odd piece is a captured marker `A.`–`E.` |
| LineQuestions.NotBlank | final_test.js:112 | `.filter(part => part.trim())` keeps only pieces that are not blank |
| LineQuestions.DropFirstPeriod | final_test.js:115 | `replace('.', '')` removes at most one character |
| LineQuestions.FillWellFormed | final_test.js:114-121 | the pairing loop stores only letters A–E, each with a non-empty trimmed text |
| LineQuestions.ParseOptionsWellFormed | final_test.js:108-124 | `parseOptionsLine` keeps only the letters A–E, each with non-empty trimmed text, so at most five keys |
| LineQuestions.ParseOptionsFive | final_test.js:86 | five keys from `parseOptionsLine` are exactly A–E |
| LineQuestions.FiveMarkedParts | final_test.js:108-124 | a line `A. a B. b C. c D. d E. e` with non-blank texts fills all five letters |
| LineQuestions.ParseOptionsLine | final_test.js:108-124 | `parseOptionsLine` with its pairing loop returns the options the function describes, all well formed |
| EnhancedParser.CheckStructure | enhanced_parser.js:88-118 | the data is accepted exactly when it has an `exams` object with at least one exam, and is then returned as parsed |
| EnhancedParser.Bump | enhanced_parser.js:178-180 | a count is added only for a new key |
| EnhancedParser.Candidates | enhanced_parser.js:141-145 | without a `sections` object only the exam's entries whose key starts with `section` are analysed |
| EnhancedParser.SectionEntries | enhanced_parser.js:143-145 | the filter keeps entries of the exam whose key starts with `section` |
| EnhancedParser.Analysed | enhanced_parser.js:147-148 | one analysis or skip per candidate section |
| EnhancedParser.ExamDetails | enhanced_parser.js:132 | one detail per exam |
| EnhancedParser.QuestionPointsOf | enhanced_parser.js:161-173 | the loop over the parts gives the question's points plus its parts' points |
| EnhancedParser.AnalyzeSection | enhanced_parser.js:147-184 | the loop over one section's questions gives the section's analysis |
| EnhancedParser.AnalyzeExam | enhanced_parser.js:132-190 | the loop over one exam's sections gives the exam's analysis |
| EnhancedParser.AnalyzeExamStructure | enhanced_parser.js:121-196 | `analyzeExamStructure` gives the analysis the function describes |
| EnhancedParser.BumpCounts | enhanced_parser.js:178-180 | counting one more question adds its point value to the keys and one to that value's count only |
| EnhancedParser.DistributionCounts | enhanced_parser.js:160-182 | one entry per distinct point value, each counting the questions with that value, the counts adding up to the number of questions |
| EnhancedParser.SectionDistributionSum | enhanced_parser.js:150-182 | a section's distribution counts add up to its `questionCount` |
| EnhancedParser.SectionPointsSum | enhanced_parser.js:160-175 | the loop's running total is the sum of the questions' points so far |
| EnhancedParser.SumQuestionPointsAppend | enhanced_parser.js:175 | adding a question adds its points |
| EnhancedParser.SectionTotalIsSum | enhanced_parser.js:160-175 | a section's `pointsTotal` is the sum of its questions' points |
| EnhancedParser.ExamFoldSums | enhanced_parser.js:147-189 | the exam lists exactly the analysed sections, and its totals are the sums over them |
| EnhancedParser.ExamTotalsAreSums | enhanced_parser.js:132-190 | an exam's analysis lists its candidate sections that have questions, in order, skipping the rest, with totals summed over them |
| EnhancedParser.FoldSums | enhanced_parser.js:132-193 | `totalExams` counts the exams, `examDetails` lists them in order, and the global totals are the sums of the exams' totals |
| EnhancedParser.GlobalTotalsAreSums | enhanced_parser.js:121-196 | one entry per exam, under its key, with its own analysis |
| EnhancedParser.Lookup | enhanced_parser.js:340 | a key lookup finds a value stored under that key, or none when no entry has the key |
| EnhancedParser.GetSectionQuestions | enhanced_parser.js:333-351 | no data gives the empty list; data with no exam is the `TypeError` the code raises |
| EnhancedParser.SectionRows | enhanced_parser.js:336-351 | the rows follow the first exam's section question by question: same ids, text falling back to `mainText`, points defaulting to 0; a section without questions gives none |
| EnhancedParser.AcceptedNeverThrows | enhanced_parser.js:104-351 | data that passed the structure checks never makes `getSectionQuestions` throw |
| ImprovedPdfConverter.NumberedTitleShape | improved_pdf_converter.js:234 | a numbered title is digits, an optional dot, spaces and then a Cyrillic capital as the first character after them |
| ImprovedPdfConverter.ClassifyPriority | improved_pdf_converter.js:185-214 | a numbered line is a question even when it also looks like an option or a header; a line is a header exactly when it is not a question or option and `looksLikeHeader` accepts it, whose own bound of 80 makes the bound of 100 redundant |
| ImprovedPdfConverter.AppendLine | improved_pdf_converter.js:182-215 | one turn of the loop appends the closing of an open question (for a question or a header) and the line's own piece |
| ImprovedPdfConverter.AppendKind | improved_pdf_converter.js:185-214 | the branches of the loop body append the line's blocks and leave a question open as those blocks say |
| ImprovedPdfConverter.ShownPieces | improved_pdf_converter.js:185-214 | one line's HTML is the closing `</div>`, when there is one, then the line's piece |
| ImprovedPdfConverter.CreateBody | improved_pdf_converter.js:179-220 | the loop over the lines and the final closing give the HTML the blocks render to |
| ImprovedPdfConverter.StepNested | improved_pdf_converter.js:185-214 | one line's blocks keep the question `<div>`s nested, with one open exactly when a question is open |
| ImprovedPdfConverter.BodyNested | improved_pdf_converter.js:182-215 | after every line the `<div>`s are nested, one open exactly when a question is open |
| ImprovedPdfConverter.BlocksBalanced | improved_pdf_converter.js:179-220 | the question `<div>`s balance: never more than one open, none closed that was not opened, none open at the end |
| ImprovedPdfConverter.ClassifiedUpTo | improved_pdf_converter.js:182-215 | one classified line per line |
| ImprovedPdfConverter.ClassifiedAt | improved_pdf_converter.js:182-215 | each line is paired with its own classification |
| ImprovedPdfConverter.LineShown | improved_pdf_converter.js:185-214 | one line's blocks show that line once, as its classification says |
| ImprovedPdfConverter.BodyShown | improved_pdf_converter.js:182-215 | the first n lines are shown once each, in order |
| ImprovedPdfConverter.EveryLineShownOnce | improved_pdf_converter.js:163-220 | every non-blank line is shown exactly once, in order, as its classification says, and nothing else is shown |
| DocumentToHtml.BodyStep | document_to_html_converter.js:147-158 | one line appends its `<h2>` or `<p>` element |
| DocumentToHtml.CreateBody | document_to_html_converter.js:135-159 | the `forEach` builds the body the lines describe |
| DocumentToHtml.UpToTag | document_to_html_converter.js:154-156 | reading up to the first `<` splits the text there, the first half holding no `<` |
| DocumentToHtml.Shown | document_to_html_converter.js:147-158 | one shown entry per line |
| DocumentToHtml.UpToTagSplits | document_to_html_converter.js:154-286 | escaped text followed by a tag splits at the tag |
| DocumentToHtml.OpenTag | document_to_html_converter.js:154-156 | the opening tag decides which element a reader sees |
| DocumentToHtml.ElementReadBack | document_to_html_converter.js:154-156 | an element reads back as its opening tag, its escaped text and its closing tag |
| DocumentToHtml.ReadElement | document_to_html_converter.js:154-156 | reading an element and what follows gives its text, then what follows read back |
| DocumentToHtml.BodyReadsBack | document_to_html_converter.js:135-159 | reading the body back gives every non-blank line, trimmed, in order, and whether it became a header |
| DocumentToHtml.ConvertRoute | document_to_html_converter.js:31-50 | a conversion is attempted only for an extension in the supported list |
| DocumentToHtml.DefaultRoutes | document_to_html_converter.js:14-50 | with the constructor's formats, an unsupported extension fails before any conversion, `.pdf` goes to the PDF route and `.doc`/`.docx` to the Word route |
| DocumentToHtml.DocumentToHtmlConverter.constructor | document_to_html_converter.js:14-17 | a new converter has the output directory and a fresh list of the three formats |
| DocumentToHtml.DocumentToHtmlConverter.Route | document_to_html_converter.js:31-50 | the check and dispatch on the object's own list give the route the function describes |
| DocumentToHtml.DocumentToHtmlConverter.GetSupportedFormats | document_to_html_converter.js:324-326 | the result is a new array with the same formats, so a caller's changes leave the object's list alone |
| DocumentToMarkdown.ReaderFor | src/documentConverter.js:14-25 | exactly the five file types `pdf`, `doc`, `docx`, `txt` and `md` have a reader; every other type is refused with the unsupported-type error |
| DocumentToMarkdown.FileTypeIsLastExtension | src/documentConverter.js:12 | the file type is the lowercased text after the last dot of the name |
| DocumentToMarkdown.NameWithoutDot | src/documentConverter.js:12 | a name without a dot is its own lowercased file type |
| DocumentToMarkdown.KindOf | src/documentConverter.js:81-106 | a line taken for an option item holds at least the letter and its punctuation |
| DocumentToMarkdown.Render | src/documentConverter.js:81-106 | the Markdown of a line uses only the line's own characters and the Markdown markup |
| DocumentToMarkdown.ProcessLine | src/documentConverter.js:75-107 | the result is empty exactly when the line is empty or blank, and holds only the line's characters and markup |
| DocumentToMarkdown.MarkerShowsKind | src/documentConverter.js:75-107 | the marker shows which test the line passed first: `### ` exactly for a numbered line, `- **` exactly for an option line that is not numbered, `# ` for a section or exam title, `$` for a formula, and no marker for plain text |
| DocumentToMarkdown.KindOrder | src/documentConverter.js:81-106 | each kind holds exactly when its test passes and every earlier test fails |
| DocumentToMarkdown.MarkerOf | src/documentConverter.js:81-106 | each kind's Markdown starts with its own marker and no other |
| DocumentToMarkdown.OptionItem | src/documentConverter.js:86-88 | an option line becomes an item with the letter, then the text after the letter and its punctuation, trimmed |
| DocumentToMarkdown.TrimOptionLine | src/documentConverter.js:78-87 | trimming an option line keeps its letter and punctuation in front and trims the rest like the body |
| DocumentToMarkdown.TrimFromFirst | src/documentConverter.js:78 | a text starting with two non-spaces loses only its trailing whitespace to `trim` |
| DocumentToMarkdown.BodyAfterMarker | src/documentConverter.js:87 | the text after the two marker characters trims like the whole body |
| DocumentToMarkdown.TrimIgnoresTrailingSpaces | src/documentConverter.js:78 | cutting whitespace off the end before trimming changes nothing |
| DocumentToMarkdown.SqueezeBlankLines | src/documentConverter.js:111 | a run of three or more line feeds at the start shrinks to two, a shorter run stays, and the first character is kept |
| DocumentToMarkdown.SqueezedHasNoBlankRun | src/documentConverter.js:111 | after squeezing no three line feeds follow each other |
| DocumentToMarkdown.SqueezeKeeps | src/documentConverter.js:111 | a text without three line feeds in a row is left as it is |
| DocumentToMarkdown.PowerAt | src/documentConverter.js:114 | a power match has a non-empty base, a caret and a non-empty exponent inside the text |
| DocumentToMarkdown.PowersWithoutCaret | src/documentConverter.js:114 | a text without a caret is left as it is |
| DocumentToMarkdown.PowerJoined | src/documentConverter.js:114 | a power written with spaces around the caret comes out with them removed |
| DocumentToMarkdown.RootAt | src/documentConverter.js:115 | a root match is the root sign followed by at least one digit |
| DocumentToMarkdown.RootStep | src/documentConverter.js:115 | each step of the root replacement writes back exactly what it consumed |
| DocumentToMarkdown.RootsChangeNothing | src/documentConverter.js:115 | the root replacement writes back what it matched, so it changes no text |
| DocumentToMarkdown.FractionAt | src/documentConverter.js:116 | a fraction match is digits, a slash and digits |
| DocumentToMarkdown.FractionRewritten | src/documentConverter.js:116 | a fraction of two numbers becomes a LaTeX `\frac` of the two numbers between dollar signs |
| DocumentToMarkdown.FractionsWithoutSlash | src/documentConverter.js:116 | a text without a slash is left as it is |
| DocumentToMarkdown.FractionsAppend | src/documentConverter.js:116 | the fraction replacement works piece by piece when the first piece ends in neither a digit nor a slash |
| DocumentToMarkdown.CleanMarkdownAsWritten | src/documentConverter.js:109-123 | as written, the clean-up leaves no whitespace run longer than one space and no space at either end |
| DocumentToMarkdown.CleanMarkdownAsWrittenIsOneLine | src/documentConverter.js:119-120 | as written, the cleaned Markdown is always a single line, however many lines went in |
| DocumentToMarkdown.NormalizeLines | src/documentConverter.js:119-120 | one normalised line per line, each the normalised form of its own line |
| DocumentToMarkdown.CleanMarkdownKeepsLines | src/documentConverter.js:109-123 | in the corrected clean-up each line is the normalised line it came from, after the math rewrites, and no line holds a line feed |
| DocumentToMarkdown.SplitJoin | src/documentConverter.js:147-151 | joining pieces that hold no separator and splitting again gives the pieces back |
| DocumentToMarkdown.MapLines | src/documentConverter.js:150-152 | one processed line per line, each the processing of its own line |
| DocumentToMarkdown.TextToMarkdown | src/documentConverter.js:143-155 | the loop builds every line's Markdown followed by a line feed, and the as-written `cleanMarkdown` of that is the result: one line, with no whitespace run and no outer whitespace |
| DocumentToMarkdown.ProcessLines | src/documentConverter.js:147-152 | the `forEach` gives every line's `processLine` followed by a line feed, in order |
| DocumentToMarkdown.TextToMarkdownIntended | src/documentConverter.js:109-155 | with the corrected clean-up, every line of the result is trimmed and has no whitespace run |
| DocumentToMarkdown.MarkdownLines | src/documentConverter.js:147-152 | before the clean-up the Markdown holds one line per input line, in order, each the `processLine` of that line, then an empty last piece |
| DocumentToMarkdown.ProcessedHasNoLineFeed | src/documentConverter.js:75-107 | the Markdown of a line that holds no line feed holds none |
| DocumentToMarkdown.LinesThenTail | src/documentConverter.js:150-152 | lines that each end in a line feed, then a last piece, split back into the lines and the piece |
| ConvertToHtml.ParseArgs | convert_to_html.js:100-116 | the loop over the arguments gives the path and options the argument list describes |
| ConvertToHtml.FirstTwoIgnored | convert_to_html.js:104 | the first two entries, the runtime and the script, are never read |
| ConvertToHtml.KeyValueOption | convert_to_html.js:107-109 | `--key=value` stores under the text before the first `=` the text up to the second `=`, and `true` when that is empty |
| ConvertToHtml.KeyValuePieces | convert_to_html.js:108 | splitting `key=value` at `=` gives the key, then the value |
| ConvertToHtml.FlagOption | convert_to_html.js:107-109 | `--flag` with no `=` stores `true` |
| ConvertToHtml.PathKept | convert_to_html.js:110-112 | once a non-empty path is read, later arguments leave it as it is |
| ConvertToHtml.NoPathYet | convert_to_html.js:110-112 | before the first non-empty plain argument the path is unset or empty |
| ConvertToHtml.FirstPathWins | convert_to_html.js:104-113 | the path is the first argument that is neither an option nor empty |
| ConvertToHtml.PathAt | convert_to_html.js:110-112 | a plain non-empty argument read with no path yet becomes the path |
| ConvertToHtml.FileExt | convert_to_html.js:33 | the extension `convert` compares is `path.extname` lowercased: as long as it, and either empty or a dot followed by no `/` and no further dot |
| ConvertToHtml.Convert | convert_to_html.js:25-67 | `convert` throws exactly when the path is missing or empty |
| ConvertToHtml.MethodOverrides | convert_to_html.js:43-50 | an explicit `simple` or `advanced` method wins over the extension |
| ConvertToHtml.ExtensionDecides | convert_to_html.js:52-63 | without a method, Word documents go to the advanced extraction and every other extension, PDF included, to the simple template |
| ConvertToHtml.OnlyOptionsFails | convert_to_html.js:29-113 | a command line holding only options makes `convert` throw that the file path is required |
| ImprovedPdfConverter.LooksLikeHeader | improved_pdf_converter.js:228-235 | definition of `looksLikeHeader`: shorter than 80 and holding a keyword, or unchanged by upper-casing, or a numbered title; its use is stated by ClassifyPriority and NumberedTitleShape |
| ImprovedPdfConverter.Classify | improved_pdf_converter.js:187-214 | definition of the loop body's branch order; its priority is stated by ClassifyPriority |
| DocumentToHtml.LooksLikeHeader | document_to_html_converter.js:166-172 | definition of `looksLikeHeader`: shorter than 80, not ending in `.` or `,`, and holding `хэсэг` or `ДААЛГАВАР` or starting with `N.`; its use is stated by BodyReadsBack |
| HtmlText.EscapeHtml | comprehensive_html_css_extractor.js:365-372 | definition of the five `replace` passes; their meaning is stated by EscapeHtmlIsPerCharacter, UnescapeEscaped and EscapedHasNoSpecials |
| AiOnlyExtractor.FixJsonAsWritten | services/aiOnlyExtractor.js:279-295 | definition of the repair in the order written; stated by FixJsonAsWrittenCloses and FixJsonAsWrittenLeavesOpen |
| AiOnlyExtractor.SplitMerged | services/aiOnlyExtractor.js:362-403 | definition of `detectAndSplitMergedQuestions`; stated by SplitMergedShape |
| AiOnlyExtractor.ValidateAndFix | services/aiOnlyExtractor.js:306-360 | definition of `validateAndFixQuestions`; stated by ValidateAndFixSound and ValidateAndFixKeepsCount |
| AiOnlyExtractor.ConvertToLegacy | services/aiOnlyExtractor.js:406-473 | definition of `convertToLegacyFormat`'s result, the shared-array case included; stated by ConvertToLegacySound |
| EnhancedParser.QuestionPoints | enhanced_parser.js:161-173 | definition of a question's points: its own, 0 if absent, plus its parts'; feeds SectionTotalIsSum |
| EnhancedParser.AnalysisOf | enhanced_parser.js:121-196 | definition of `analyzeExamStructure`'s result; stated by FoldSums, ExamTotalsAreSums and DistributionCounts |
| DocumentToMarkdown.Powers | src/documentConverter.js:114 | definition of the power rewrite; stated by PowerAt, PowersWithoutCaret and PowerJoined |
| DocumentToMarkdown.Fractions | src/documentConverter.js:116 | definition of the fraction rewrite; stated by FractionAt, FractionRewritten and FractionsWithoutSlash |
| DocumentToMarkdown.CleanMarkdown | src/documentConverter.js:109-123 | definition of the corrected clean-up that keeps line feeds; stated by CleanMarkdownKeepsLines |
| DocumentToMarkdown.FileType | src/documentConverter.js:12 | definition of the file type; stated by FileTypeIsLastExtension and NameWithoutDot |
| FinalTest.Step | final_test.js:69-102 | definition of one turn of the line loop; stated by OpenAccounted, SaveAccounted and KeepAccounted |
| FinalTest.Section1 | final_test.js:62-106 | definition of `extractSection1Questions`' records; stated by Section1Sound |
| SimpleExtraction.Step | simple_extraction.js:23-56 | definition of one turn of the line loop; stated by AnyNumberOpens and SavesOnlyOnFiveOptions |
| SimpleExtraction.Extracted | simple_extraction.js:15-60 | definition of `extractQuestions`' records; stated by ExtractedSound |
| DebugExtraction.Step | debug_extraction.js:34-85 | definition of one turn of the line loop; stated by StepAccounted and WrittenStepEmpty |
| DebugExtraction.Extracted | debug_extraction.js:17-95 | definition of the script's records; stated by ExtractedWell and WrittenSavesNothing |
| TestParser.Step | test_parser.js:89-118 | definition of one turn of the line loop; stated by OpeningSavesAndResets, OptionLineSetsOneKey and OtherLineExtends |
| TestParser.Section1 | test_parser.js:82-125 | definition of the section after `extractSection1Questions`; stated by Section1Sound |
| SimpleHtmlExtractor.Step | simple_html_extractor.js:118-148 | definition of one turn of the look-ahead loop; stated by ScanOptions, ScanAfterOptions and ScanQuestionText |

## Left out

- File and network I/O, the document store, Firebase and the console output are not modelled. Upload steps are replaced by the records they would send. `main`, the help text and the exit codes are left out.
- The PDF and Word readers are not modelled. These are PDF.js, `pdf-parse` and `mammoth`, and they reach the model only as the text they return. This covers `pdfToMarkdown` and its page coordinates, which are floating point, and the post-processing of `docToMarkdown`.
- The DOM is not modelled: JSDOM, the tree walker and `querySelectorAll`. The HTML parser extractor receives the document's text nodes as a list of strings, and its test for where a question starts is computed from them.
- `JSON.parse`, `JSON.stringify` and `decodeURIComponent` are inputs or parameters. The model does not parse JSON. Keys such as `__proto__` get no special treatment.
- The calls to the language model are not modelled: the request, the reply and `parseAIResponse`. The replies enter as text or as records.
- `collectQuestionText` is called by the Firebase extractor but not defined in its class. It is a function parameter.
- Presentational output is not modelled: the HTML fields that the smart, comprehensive and improved extractors attach to records, `createQuestionHTML`, `formatMathText`, `wrapInHTMLDocument`, the metadata block, dates, `formatFileSize` and `printSummary`. Of the clean-up passes, only the improved extractor's `cleanHTML` of `questionHTML` is left out. The HTML parser extractor's option and part fragments and its `cleanHTML`, and the improved extractor's `cleanText`, are modelled.
- Case mapping covers ASCII, basic Cyrillic with `ё`, and the Mongolian letters `ө` and `ү`. Other scripts are left unchanged.
- `parseInt` is modelled on digit strings without a precision limit.
- HtmlParserExtractor.FirstHead: the first question head is found, but the contract does not say it is the leftmost one in the text.
- AiOnlyExtractor.ConvertToLegacy: the model returns the two lists. It does not model that the categorising loop also pushes into the input sections' own `questions` arrays, which the caller's reply object then holds.
- EnhancedParser.Distribution: the counts per point value are modelled with the values in first-seen order. A JavaScript object lists non-negative integer keys in ascending order, so the model does not state the key order of `pointsDistribution`.
- AnthropicValidation: the section-two template fix (`fixTemplates`) is not modelled.
- ImprovedHtmlExtractor: the HTML-level regular expressions that only serve presentation are not modelled, nor are `saveToFirebase` and `printSummary`.

## Findings

| source | as written | input that shows it | evidently intended | confidence | as-written member | corrected member |
|---|---|---|---|---|---|---|
| smart_html_extractor.js:118-120 | the option search starts after index `j`, but the question-text loop stopped at the option marker `j` itself, so the first option is skipped | words `а.` `four` after a question, with no other `а.` | the search starts at `j` | not executed | WordSegments.FirstOptionLost | WordSegments.OptionForIntended |
| services/aiOnlyExtractor.js:280-292 | braces are balanced before the unterminated string is cut off at its colon, and the cut removes the appended `}` | the reply `{"metadata": "abc` | close the string first, then balance the braces | not executed | AiOnlyExtractor.FixJsonAsWrittenLeavesOpen | AiOnlyExtractor.FixJsonBalancedCloses |
| debug_extraction.js:62 | every option text is a lazy group followed only by optional groups, so it always captures the empty string and no option pair is ever kept | any input | each option text runs up to the next option letter | not executed | DebugExtraction.WrittenSavesNothing | DebugExtraction.ExtractedWell |
| final_test.js:130 | `[^2]*?` cannot cross a `2`, so a question text containing a `2` that does not start a sub-header is never matched | the text `2.1. 42` | the lazy group may cross any character | not executed | FinalTest.Section2MissesHeader | FinalTest.Section2IntendedExactly |
| src/documentConverter.js:118-120 | `/\s+/g` also replaces line feeds, so the whole Markdown collapses to a single line | any text of two non-blank lines | collapse spaces within each line and keep the line breaks | not executed | DocumentToMarkdown.CleanMarkdownAsWrittenIsOneLine | DocumentToMarkdown.CleanMarkdownKeepsLines |
