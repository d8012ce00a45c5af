# Article sanitizer: the rewrite chain

`sanitize.py` prepares a Markdown article for blog publishing. It reads the whole
file and runs four `re.sub` calls over the text, one after the other:

1. line 25: an alert box's opening tag becomes `>`. The pattern takes `<div`, one
   whitespace character, `class='aler` followed by one or more `t`, a whitespace
   run, two word runs joined by `-` (as in `alert-info`), `'`, one whitespace
   character, `role='alert'>` and a newline. It then takes the whitespace run of
   the indentation and an optional `<strong>Word:</strong>` label with one
   whitespace character after it;
2. line 26: every `</div>` followed by a newline is deleted;
3. line 28: `###` and the whitespace run after it become `## `;
4. line 29: `####` and the whitespace run after it become `### `.

It then writes the result back to the same file.

The model has four modules:

- `CharClasses` (`charclasses.dfy`) keeps `\s` and `\w` abstract, as two
  predicates. `Sound` lists the only facts the proofs use:
  - ASCII letters, digits and `_` are word characters;
  - the six ASCII blanks, including the newline, are whitespace;
  - the pattern punctuation `< > / = ' - : #` is neither;
  - no character is both.
- `Regex` (`regex.dfy`) is the fragment of Python's regular expressions that the
  four patterns use: literal text, one class character, a greedy `+` run, and a
  greedy optional group. It defines two matchers over it:
  - `Backtrack` follows the priority order of Python's backtracking engine: a run
    tries its longest length first, and a group is tried before it is skipped;
  - `Greedy` is a scanner that never gives characters back.

  `GreedyIsBacktracking` proves the two agree on every `Deterministic` pattern.
  `Deterministic` means that no run is followed by something that could start
  with one of its own characters, and that an optional group comes only last.
- `ReSub` (`resub.dfy`) defines two forms of substitution and proves them equal
  (`ScannerIsPythonSub`):
  - `PySubFrom` is Python's `re.sub` loop: search for the leftmost match, copy
    the text before it, emit the replacement, and go on after the match;
  - `SubFrom` is the scanner the rest of the model uses.

  It also holds the lemmas that compute a substitution piece by piece.
- `Sanitize` (`sanitize.dfy`) has the four patterns, the four steps
  (`AlertToQuote`, `DropClosingDiv`, `UpscaleLevel3`, `UpscaleLevel4`) and their
  composition `SanitizeText`, together with the properties of each step and of
  the chain.

The text written back to the file is `SanitizeText(k, content)`. `SanitizeIsReSubChain`
proves that this equals the four Python substitutions applied in the source's order,
for every `k` satisfying `Sound`.

Behaviour of the code that the model reproduces, and that a reader of the comments
might not expect:

- The alert replacement is a bare `>`. Together with line 26, the whole alert box
  `<div …>`, newline, `  <strong>Note:</strong> Hello`, `</div>`, newline becomes
  `>Hello`: there is no space after `>` and no newline after the text
  (`AlertBoxSanitized`).
- Line 28 runs before line 29, and `###` also matches inside `####`, one character
  in. So a level-4 heading is rewritten by line 28, and line 29 then finds no `####`
  to change (`Level4HeadingAfterLine28`, `Level4HeadingUpscaled`). The two heading
  steps do not commute. In the opposite order `#### Sub` would end as `## Sub`
  rather than `### Sub` (`HeadingStepsDoNotCommute`).
- Five `#` lose two levels. Line 28 matches at the third `#`, which gives `####`,
  and line 29 then gives `###` (`Level5HeadingUpscaled`).
- The heading patterns are not anchored to the start of a line. `\s+` also takes
  newlines, so `###` followed by two newlines and `Text` becomes `## Text`
  (`NewlinesAfterMarkerExample`).

## Model

| member | source | states |
|---|---|---|
| `Regex.Greedy` | sanitize.py:25-29 | the scanner: a literal must appear at the position, one class character is taken if it is there, a `+` run takes all the class characters there (at least one) and never gives one back, a group is taken if it matches and skipped otherwise; a match ends inside the text, not before its start, and strictly after it when the pattern begins with literal text |
| `Regex.Backtrack` | sanitize.py:25-29 | Python's matcher: as the scanner, except that a `+` run retries the rest of the pattern from its longest length down to one, and a group whose taking lets the rest fail is retried skipped; the same bounds on where a match ends |
| `ReSub.SubFrom` | sanitize.py:25-29 | the scanner's substitution: from a position, where the pattern matches emit the replacement and resume after the match, elsewhere copy the character and move one on, up to the end of the text |
| `ReSub.Search` | sanitize.py:25-29 | returns a position between the start point and the end of the text at which Python's matcher succeeds, and every position from the start point up to that one (up to the end of the text when it returns none) fails |
| `ReSub.PySubFrom` | sanitize.py:25-29 | Python's `re.sub` loop: search for the leftmost match, copy the text before it, emit the replacement, resume at the end of the match, and copy the rest once no match is left |
| `Sanitize.AlertToQuote` | sanitize.py:25 | line 25: every match of the alert-opening pattern, taken left to right without overlap, is replaced by `>` |
| `Sanitize.DropClosingDiv` | sanitize.py:26 | line 26: every `</div>` followed by a newline is replaced by nothing |
| `Sanitize.UpscaleLevel3` | sanitize.py:28 | line 28: every `###` with the whitespace run after it is replaced by `## ` |
| `Sanitize.UpscaleLevel4` | sanitize.py:29 | line 29: every `####` with the whitespace run after it is replaced by `### ` |
| `Sanitize.SanitizeText` | sanitize.py:25-29 | the text written back: lines 25, 26, 28 and 29 applied in that order to the text read |
| `CharClasses.AsciiClassesSound` | sanitize.py:25-29 | the ASCII reading of `\s` and `\w` satisfies every fact the proofs assume of the two classes |
| `Regex.GreedyIsBacktracking` | sanitize.py:25-29 | on a pattern where no run can give characters back to what follows, the greedy scanner ends exactly where Python's backtracking matcher ends, and fails exactly when it fails |
| `Regex.TryLongestKeepsWholeRun` | sanitize.py:25 | when what follows a `+` run cannot start with one of its characters, or is all optional, Python's longest-first retry settles on the whole run |
| `ReSub.ScannerIsPythonSub` | sanitize.py:25-29 | on a deterministic pattern that cannot match the empty string, the left-to-right scanner returns the same text as `re.sub`'s search-and-replace loop |
| `ReSub.SubFromMatch` | sanitize.py:25-29 | at a match the substitution emits the replacement and continues on the text after the match |
| `ReSub.SubFromCopies` | sanitize.py:25-29 | positions where nothing matches are copied to the output unchanged and in order |
| `ReSub.SubShift` | sanitize.py:25-29 | the substitution of a suffix does not depend on the text before it |
| `ReSub.SubWithoutText` | sanitize.py:25-29 | a text in which the pattern's leading literal never occurs is returned unchanged |
| `ReSub.SubSkipsShortPrefix` | sanitize.py:28-29 | a prefix shorter than the pattern's leading literal, followed by a character the literal lacks, holds no match and is copied unchanged |
| `ReSub.GreedyOverPieces` | sanitize.py:25 | a text laid out piece by piece, where each piece is exactly what its atom takes, is matched by the pattern up to the end of the last piece |
| `Sanitize.PatternsAreDeterministic` | sanitize.py:25-29 | none of the four patterns has a run that could give characters back, so the scanner computes each `re.sub` |
| `Sanitize.SanitizeIsReSubChain` | sanitize.py:25-29 | the composed rewrite equals the four Python substitutions applied in the order of lines 25, 26, 28 and 29 |
| `Sanitize.AlertTagMatches` | sanitize.py:25 | a well-formed opening tag, up to the end of the whitespace run after its newline, is taken whole by the part of the pattern before the optional label |
| `Sanitize.LabelTaken` | sanitize.py:25 | a `<strong>word:</strong>` label followed by one whitespace character is taken whole by the optional group |
| `Sanitize.AlertWithLabelBecomesQuote` | sanitize.py:25 | an opening tag with a label becomes the single character `>`, and the text after the label's whitespace character is kept and rewritten on |
| `Sanitize.AlertWithoutLabelBecomesQuote` | sanitize.py:25 | an opening tag without a label still consumes the whole indentation and becomes `>`, and the text after it is kept |
| `Sanitize.AlertToQuoteKeepsOtherText` | sanitize.py:25 | a text with no `<div` is unchanged by line 25 |
| `Sanitize.ClosingTagsDoNotOverlap` | sanitize.py:26 | two occurrences of `</div>` and a newline never overlap |
| `Sanitize.DropClosingDivLength` | sanitize.py:26 | line 26 takes exactly seven characters out per occurrence of `</div>` and a newline |
| `Sanitize.DropClosingDivRemovesTag` | sanitize.py:26 | the first `</div>` and newline is deleted, and everything before it is kept in order |
| `Sanitize.DropClosingDivKeepsOtherText` | sanitize.py:26 | a text with no `</div>` and newline is unchanged by line 26 |
| `Sanitize.MarkerMatches` | sanitize.py:28-29 | a heading pattern matches its marker together with the whole whitespace run after it |
| `Sanitize.Level3HeadingUpscaled` | sanitize.py:27-28 | `###` followed by a whitespace run becomes `## `, the run collapsing to one space |
| `Sanitize.Level4MarkerRewritten` | sanitize.py:29 | on its own, line 29 turns `####` and a whitespace run into `### ` |
| `Sanitize.Level4HeadingAfterLine28` | sanitize.py:28 | line 28 does not match `####` at its first `#`, but one character later, so a level-4 marker leaves line 28 as `### ` |
| `Sanitize.Level3MarkerSurvivesLine29` | sanitize.py:29 | `### ` holds no `####` and passes line 29 unchanged |
| `Sanitize.Level4HeadingUpscaled` | sanitize.py:27-29 | after lines 28 and 29 a level-4 marker is a level-3 marker, whatever follows it |
| `Sanitize.Line28KeepsHead` | sanitize.py:28 | line 28 never makes a text begin with whitespace when it did not |
| `Sanitize.Level5HeadingUpscaled` | sanitize.py:28-29 | a five-`#` marker ends as `### ` after lines 28 and 29 |
| `Sanitize.Level5HeadingExample` | sanitize.py:28-29 | `##### x` comes out of lines 28 and 29 as `### x` |
| `Sanitize.HeadingStepsDoNotCommute` | sanitize.py:28-29 | on `#### ` and a word, lines 29-then-28 give `## ` and the word, while the source's order gives `### ` and the word |
| `Sanitize.ShortPrefixKept` | sanitize.py:28-29 | fewer than three characters followed by something other than `#` start no heading match on either line |
| `Sanitize.ShortMarkerUnchanged` | sanitize.py:28-29 | `#` or `##` with a space and a plain word, such as `# Title` or `## Intro`, passes lines 28 and 29 unchanged |
| `Sanitize.Level3WithoutWhitespaceKept` | sanitize.py:28-29 | `###` followed by neither whitespace nor `#` is copied by each heading line |
| `Sanitize.GluedMarkerUnchanged` | sanitize.py:28-29 | `###` glued to a plain word, such as `###x`, passes lines 28 and 29 unchanged |
| `Sanitize.NewlinesAfterMarkerExample` | sanitize.py:28 | `###` followed by two newlines and `Text` becomes `## Text` |
| `Sanitize.AlertBoxAfterLine25` | sanitize.py:25 | line 25 on a whole alert box leaves `>`, the line of text and the closing tag |
| `Sanitize.AlertBoxSanitized` | sanitize.py:25-29 | a whole alert box with a label, a line of text and a closing tag comes out of the chain as `>` directly followed by the text |
| `Sanitize.LabelledAlertExample` | sanitize.py:25 | `<div class='alert alert-info' role='alert'>`, a newline and `  <strong>Note:</strong> Hello` becomes `>Hello` |
| `Sanitize.UnlabelledAlertExample` | sanitize.py:25 | `<div class='alert alert-warning' role='alert'>`, a newline and `  Careful here` becomes `>Careful here`: without a label the indentation is still consumed |
| `Sanitize.PlainWordPasses` | sanitize.py:25-29 | a text without `<` and `#` passes each of the four lines unchanged |
| `Sanitize.SanitizeKeepsPlainText` | sanitize.py:25-29 | a text with no `<div`, no `</div>` and newline, and no `###` comes out of the four lines unchanged: the text written is the text read, as decoded text |

## Left out

- Command-line parsing: the parser is built and `parse_args` is called at module
  scope and again under `__main__` (sanitize.py:6-15, 34-35). This is library
  plumbing with no logic.
- The check that the file exists, its message and `sys.exit()` (sanitize.py:17-19).
  This is file-system I/O. `sys` is never imported, so that path would raise
  `NameError` rather than exit.
- Opening, reading, seeking, truncating and writing the file (sanitize.py:21-22,
  30-32). This is I/O. The model takes the text read as an argument, and the text
  written is `SanitizeText` of it. `open(..., 'r+')` opens the file in text mode
  with universal newlines, so a `\r\n` in the file reaches the patterns as `\n`.
  A `</div>` ended by `\r\n` is therefore deleted by line 26 too. Writing encodes
  the newlines again in the platform's way. The model is about the decoded text,
  not the file's bytes.
- Python's Unicode definitions of `\s` and `\w`. They stay abstract, and only the
  facts in `Sound` are assumed about them.
- A general regular-expression engine. Only the four fixed patterns are modelled,
  as atoms of literal text, one class character, a greedy `+` run and a trailing
  optional group.
- Compilation and caching of patterns, and the `count` and `flags` arguments of
  `re.sub`. The source uses none of them.
- `re.sub`'s handling of empty matches. None of the four patterns can match the
  empty string, since each begins with literal text.
- `Sanitize.AlertWithoutLabelBecomesQuote`: this is stated only for a following
  text that does not begin with `<strong>`. Text that begins with `<strong>` but is
  not a complete label also makes the group be skipped; that case is not covered.
- `Sanitize.AlertWithLabelBecomesQuote` and the other alert lemmas describe tags
  given piece by piece (`AlertShape`). The model does not prove that every match of
  the line-25 pattern has that shape.
