# iam-extractor: the CloudFormation renderer, in Dafny

`iam-extractor` reads one IAM role from AWS and prints it as a
CloudFormation YAML fragment: an `AWS::IAM::Role` resource keyed by the
role name without its hyphens, with the role's description, trust policy,
session duration, path, inline policies and managed-policy ARNs filled
into a fixed template. This project models the text-rendering half of
`cmd/root.go` and proves properties of it:

- `indent`: split a text at its line breaks, put `n` spaces in front of
  every line, and join the lines again (`Indentation`, on top of a model
  of Go's `strings.Split` and `strings.Join` in `Strings`);
- `getSanitizedRoleName`: delete every `-` (`Sanitizer`);
- the segment that `getInlinePoliciesYaml` builds for each inline policy,
  and the template that `getCfnYamlSnippet` fills in (`CfnSnippet`; the
  `%d` rendering of the `int32` session duration is in `Decimal`);
- the data flow of `extractIamRole`: the four IAM lookups in order, the
  ARN projection, the decode-and-convert step for every policy document,
  and the points where the program stops instead of producing a fragment
  (`Extract`);
- the scenarios of the repository's test file (`Scenarios`).

The model is pure: functions over strings (`seq<char>`) and datatypes,
and lemmas about them. The IAM service is replaced by what it answered
(`Extract.Directory`). `url.QueryUnescape` and `yaml.JSONToYAML` are
functions passed in (`Extract.Transcoder`), so every statement holds
whatever those two conversions produce.

Most properties of the fragment are stated line by line: `Lines` is
`strings.Split(s, "\n")` and `Unlines` is `strings.Join(lines, "\n")`.
`Strings.JoinSplit` and `Strings.SplitJoin` prove that these two undo
each other, so a statement about the lines of a text is a statement about
the text.

A failed `GetRolePolicy` call returns a nil output whose error is
ignored. `cmd/root.go:128` dereferences that output, so the program
panics and no policy is rendered with a missing document. The model ends
with `Err(GetRolePolicyFailed(name))` for the first such policy in
listing order.

The test `TestRoleNameSanitized` also expects the text
`RoleName: test-role-name:`. The template puts no colon after the name
(`cmd/root.go:157`). `Scenarios.MockRoleKey` proves that the line is
exactly `    RoleName: test-role-name`.

## Model

| member | source | states |
|---|---|---|
| Strings.Join | cmd/root.go:223 | the definition of `strings.Join`: no parts give the empty text, one part gives itself, otherwise the parts with the separator between neighbours; `Strings.JoinSplit` and `Strings.SplitJoin` state what it means |
| Strings.Count | cmd/root.go:217 | the number of separators in a text is zero exactly when the text does not contain it, and at most its length |
| Strings.Split | cmd/root.go:217 | `strings.Split` with a one-character separator gives one more piece than there are separators, and no piece contains the separator |
| Strings.JoinSplit | cmd/root.go:217-223 | joining the pieces of a split with the separator gives the original text back |
| Strings.SplitJoin | cmd/root.go:217-223 | splitting a join of separator-free pieces gives the pieces back |
| Strings.SplitAround | cmd/root.go:217 | a separator inside a text splits the two sides independently |
| Strings.SplitFree | cmd/root.go:217 | a text without the separator is a single piece |
| Strings.SplitPrefix | cmd/root.go:217 | a separator-free prefix only extends the first piece |
| Strings.JoinCons | cmd/root.go:223 | joining one more leading part puts it and the separator in front |
| Strings.JoinPrependFirst | cmd/root.go:223 | extending the first part extends the joined text by the same prefix |
| Strings.LinesOfUnlines | cmd/root.go:153-172 | the lines of texts joined by line breaks are the lines of each text in turn |
| Strings.AllLinesAppend | cmd/root.go:153-172 | the lines of two runs of texts are the lines of the first run, then the lines of the second |
| Strings.AllLinesOfSingleLines | cmd/root.go:153-172 | texts without a line break are their own lines |
| Strings.LinesOfSingleLinePrefix | cmd/root.go:153-157 | leading texts without a line break are the leading lines of their join |
| Strings.LinesOfSingleLineSuffix | cmd/root.go:163-167 | trailing texts without a line break are the trailing lines of their join |
| Indentation.Indent | cmd/root.go:214-224 | the definition of `indent`: the lines of the text, each with `n` spaces in front, joined again; `Indentation.LinesOfIndent` and the lemmas below state what it means |
| Indentation.Spaces | cmd/root.go:215 | `strings.Repeat(" ", n)` is `n` characters, all spaces |
| Indentation.LinesOfIndent | cmd/root.go:214-224 | the lines of `indent(s, n)` are the lines of `s`, each with `n` spaces in front, empty lines and the piece after a trailing line break included |
| Indentation.IndentLine | cmd/root.go:215-221 | `indent(s, n)` has as many lines as `s`, and its line `i` is `n` spaces followed by line `i` of `s` |
| Indentation.IndentKeepsLineBreaks | cmd/root.go:217-223 | `indent` keeps the number of line breaks |
| Indentation.IndentZero | cmd/root.go:214-224 | `indent(s, 0) == s` |
| Indentation.IndentTwice | cmd/root.go:214-224 | `indent(indent(s, a), b) == indent(s, a + b)` |
| Indentation.IndentLength | cmd/root.go:214-224 | `indent(s, n)` is `n` characters longer per line of `s` |
| Indentation.JoinLengthPrefixed | cmd/root.go:219-223 | joining lines that each have `n` spaces in front adds `n` characters per line |
| Sanitizer.Sanitize | cmd/root.go:143-147 | the definition of `getSanitizedRoleName`: the name with every `-` left out, character by character; `Sanitizer.SanitizeIsReplaceAll` ties it to `strings.Replace` |
| Sanitizer.SanitizeIsReplaceAll | cmd/root.go:143-147 | the sanitized name is `strings.Replace(name, "-", "", -1)`: the pieces between the hyphens, concatenated |
| Sanitizer.SanitizeChars | cmd/root.go:144 | the sanitized name contains no hyphen and only characters of the name |
| Sanitizer.SanitizeAppend | cmd/root.go:144 | sanitizing works piece by piece over a concatenation, so the other characters keep their order |
| Sanitizer.SanitizeKeepsOthers | cmd/root.go:144 | every character other than `-` occurs as often in the sanitized name as in the name |
| Sanitizer.SanitizeLength | cmd/root.go:144 | the sanitized name is shorter than the name by the number of hyphens |
| Sanitizer.SanitizeHyphenFree | cmd/root.go:144 | a name without hyphens is unchanged |
| Sanitizer.SanitizeIdempotent | cmd/root.go:143-147 | sanitizing twice is sanitizing once |
| Sanitizer.DropHyphen | cmd/root.go:144 | a hyphen between two parts disappears and the parts are sanitized on their own |
| Sanitizer.ThreeWords | cmd/root.go:144 | three hyphen-free words joined by hyphens sanitize to the three words run together |
| Sanitizer.SanitizeExample | cmd/root_test.go:103 | `test-role-name` sanitizes to `testrolename` |
| Sanitizer.CountAppend | cmd/root.go:144 | occurrences of a character in a concatenation add up |
| Decimal.DigitChar | cmd/root.go:161 | a digit value below ten is written as a decimal digit character |
| Decimal.DigitValue | cmd/root.go:161 | reading a digit character and writing it again gives the character back |
| Decimal.NatToDecimal | cmd/root.go:161 | the decimal form of a natural number is a non-empty run of digits, with a leading zero only for zero |
| Decimal.FormatInt | cmd/root.go:161 | `%d` of a number is a non-empty run of digits, with a minus sign in front only for a negative number |
| Decimal.ParseNat | cmd/root.go:161 | the reference reading of a run of decimal digits, the inverse that `Decimal.FormatIntRoundTrip` is stated against |
| Decimal.ParseInt | cmd/root.go:161 | the reference reading of an optionally signed run of decimal digits |
| Decimal.ParseNatToDecimal | cmd/root.go:161 | reading the digits of a natural number gives the number |
| Decimal.FormatIntRoundTrip | cmd/root.go:161 | reading back the `%d` rendering of the session duration gives the duration |
| Decimal.FormatIntInjective | cmd/root.go:161 | different durations render differently |
| CfnSnippet.InlineSegment | cmd/root.go:132-134 | the definition of one inline-policy segment: the `PolicyName:` line, the `PolicyDocument:` line and the document indented by ten, joined by line breaks; `CfnSnippet.SegmentLines` states its lines |
| CfnSnippet.ListBlock | cmd/root.go:171-172 | the definition of a list as the template writes it: the marker, then the items joined with a line break and the marker; `CfnSnippet.ListBlockLines` states its lines |
| CfnSnippet.CfnYamlSnippet | cmd/root.go:150-175 | the definition of `getCfnYamlSnippet`: the template's lines joined by line breaks; `CfnSnippet.SnippetLines`, `CfnSnippet.SnippetKeyLines` and `CfnSnippet.SnippetEmptyListsTail` state what it renders |
| CfnSnippet.TemplateLines | cmd/root.go:153-172 | the definition of the template's lines, holes filled in order: the header, the trust document indented by six, the settings, the policy list, the `ManagedPolicyArns:` line, the ARN list and the final empty line |
| CfnSnippet.SegmentLines | cmd/root.go:132-134 | the segment of one inline policy is the `PolicyName:` line with the name, the `PolicyDocument:` line, and every line of the document ten columns in |
| CfnSnippet.TwoLinesThen | cmd/root.go:134 | two single lines followed by a text are those two lines, then the lines of the text |
| CfnSnippet.ListBlockLines | cmd/root.go:163-172 | a list joined with a line break and the marker is the marker in front of the first line of every item, and the bare marker for no items |
| CfnSnippet.ListBlockCons | cmd/root.go:171-172 | a list of two or more items is the first marked item, a line break, then the rest of the list |
| CfnSnippet.MarkedSingleLines | cmd/root.go:172 | single-line items become one line each, with the marker in front |
| CfnSnippet.TemplateShape | cmd/root.go:153-172 | the lines of the template are its fixed single lines, with the lines of the four multi-line holes in place |
| CfnSnippet.OneText | cmd/root.go:153-172 | the lines of a text followed by further texts are its lines, then theirs |
| CfnSnippet.TailShape | cmd/root.go:165-167 | the tail of the template is the `ManagedPolicyArns:` line, the lines of the ARN list, and the final empty line |
| CfnSnippet.HeaderSingleLines | cmd/root.go:151-159 | with a single-line name and description, no header line holds a line break |
| CfnSnippet.SettingsSingleLines | cmd/root.go:161-163 | with a single-line path, the duration, path and `Policies:` lines hold no line break |
| CfnSnippet.SnippetLines | cmd/root.go:150-175 | the fragment's lines: an empty line; the sanitized name as the key; the fixed `Type` and `Properties` lines; the raw name and the description; every trust-document line six columns in; the duration in decimal and the path in single quotes; the policy list and the ARN list; a final empty line |
| Extract.DocumentYaml | cmd/root.go:128-130 | the definition of the decode-and-convert step, the same for every policy document and for the trust document (cmd/root.go:192-194) |
| Extract.ManagedPolicyArns | cmd/root.go:187-190 | the definition of the ARN projection: the ARN of each attached policy, in response order; `Extract.ArnsAsLines` states how they are rendered |
| Extract.InlinePoliciesYaml | cmd/root.go:119-140 | with every listed document at hand, one segment per policy name in listing order, segment `i` built from name `i` and its decoded and converted document; otherwise the error names the first policy, in listing order, whose document is missing |
| Extract.ExtractIamRole | cmd/root.go:178-202 | a fragment exactly when every lookup answered and the role has a description; otherwise the first failing step in the source's order decides the error: the role, the inline list, the attached list, then the first listed inline policy without a document (named in the error), then a missing description |
| Extract.SegmentsAsLines | cmd/root.go:122-139 | the marked segments are the policy entries, in listing order |
| Extract.EntryAsLines | cmd/root.go:164 | one segment behind the `      - ` marker is the `      - PolicyName:` line, the `PolicyDocument:` line and the indented document |
| Extract.ArnsAsLines | cmd/root.go:187-190 | the ARN block is one `    - ` line per attached policy's ARN, in response order, or the bare marker |
| Extract.RenderedLines | cmd/root.go:178-202 | for a complete answer with single-line values, the fragment's lines are the header, the converted trust document six columns in, the settings, every inline policy in listing order with its converted document ten columns in, and every managed ARN in response order |
| Scenarios.MockComplete | cmd/root_test.go:24-78 | the test's mocked answers are complete and single-line |
| CfnSnippet.SnippetKeyLines | cmd/root.go:151-157 | for a role name without a line break, whatever the other values, line 1 of the fragment is the sanitized name and a colon, and line 4 is `    RoleName: ` with the raw name |
| CfnSnippet.SnippetEmptyListsTail | cmd/root.go:163-172 | with no inline and no managed policy, whatever the other values, the fragment ends with `    Policies:`, the bare `      - ` marker, `    ManagedPolicyArns:`, the bare `    - ` marker and an empty line |
| Scenarios.KeyLines | cmd/root.go:151-157 | for every complete answer and a role name without a line break, line 1 of the rendered fragment is the sanitized name and a colon, and line 4 is `    RoleName: ` with the raw name |
| Scenarios.MockRoleKey | cmd/root_test.go:103 | for `test-role-name`, line 1 is `testrolename:` and line 4 is `    RoleName: test-role-name`, with no colon after the name |
| Scenarios.TestNameLines | cmd/root_test.go:103 | the key line and the name line built for `test-role-name` |
| Scenarios.TwoPoliciesOneArn | cmd/root.go:163-172 | for a role with two inline policies and one managed policy, the lines at the computed positions are the two policy names in listing order, the `ManagedPolicyArns:` line and the ARN, and the total line count is known |
| Scenarios.TwoEntries | cmd/root.go:122-139 | two inline policies give the entries of both, in listing order |
| Scenarios.OneArn | cmd/root.go:187-190 | one attached policy gives one ARN line |
| Scenarios.NoPoliciesRendered | cmd/root.go:163-172 | every complete answer without inline or managed policies renders, whatever its description and path, and each list is its bare marker line |

## Left out

- The AWS SDK calls and the `IamApi` interface (cmd/root.go:31-36, 82-116, 123-126) are remote I/O. They are replaced by their answers (`Extract.Directory`). Pagination past the first page is not modelled, as in the source.
- Configuration loading, argument binding, and `Run`, `Help`, `Error`, `Execute` and `Doc` (cmd/root.go:38-79) are process plumbing. This includes the check for an empty role name at cmd/root.go:51-54.
- The `log.Fatal*` exits and the nil-pointer panics are process termination. They become the `Err` values of `Extract.RenderError`; the log messages are not modelled.
- Printing to stdout and `os.WriteFile` (cmd/root.go:204-210) are output I/O. `Extract.ExtractIamRole` returns the text that would be written.
- The internals of `url.QueryUnescape` and `yaml.JSONToYAML` are foreign library code. They are functions given as input (`Extract.Transcoder`). The source discards their errors, so the model has none.
- Extract.ExtractIamRole: the role's `Path`, `MaxSessionDuration` and `AssumeRolePolicyDocument` and each attached policy's `PolicyArn` are assumed to be present. A nil one would also panic in the source (cmd/root.go:189, 192, 199-200); only a nil `Description` is modelled (`DescriptionMissing`).
- Go strings are bytes; the model uses `seq<char>`. The separators `'\n'` and `'-'` are ASCII, so splitting and deleting happen at the same places.
- Indentation.Indent: the count is a `nat`. `strings.Repeat` panics on a negative count, and the renderer only passes 6 and 10.
- Extract.RenderedLines, CfnSnippet.SnippetLines: the line-by-line layout is proved only for single-line role names, descriptions, paths, policy names and ARNs. Nothing in the source escapes a line break in these values, so one would break the YAML layout.
- The tests in cmd/root_test.go use a return value of `extractIamRole`, which returns nothing, so they do not compile. Their mocked answers appear as `Scenarios.MockDirectory`.
