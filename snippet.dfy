/** The text of the CloudFormation fragment: the segment built for one
    inline policy (`getInlinePoliciesYaml`) and the fixed template that
    `getCfnYamlSnippet` fills in, with the line structure each produces. */
module CfnSnippet {
  import opened Strings
  import opened Indentation
  import opened Sanitizer
  import opened Decimal

  /** Column of a policy document under `PolicyDocument:`. */
  const PolicyDocumentIndent: nat := 10
  /** Column of the trust document under `AssumeRolePolicyDocument:`. */
  const TrustDocumentIndent: nat := 6
  /** List marker of the `Policies` entries. */
  const PolicyItem: string := "      - "
  /** List marker of the `ManagedPolicyArns` entries. */
  const ArnItem: string := "    - "

  /** `fmt.Sprintf("PolicyName: %s\n        PolicyDocument:\n%s", name,
      indent(yaml, 10))`: the format's three lines with their holes filled. */
  function InlineSegment(policyName: string, documentYaml: string): string
  {
    Unlines(["PolicyName: " + policyName,
             "        PolicyDocument:",
             Indent(documentYaml, PolicyDocumentIndent)])
  }

  /** A YAML list as the template writes it: the marker, then the items
      joined with a line break and the marker (`strings.Join(items, "\n" +
      marker)`). No items leave the bare marker. */
  function ListBlock(items: seq<string>, marker: string): string
  {
    marker + Join(items, "\n" + marker)
  }

  /** `getCfnYamlSnippet`: the lines of the `Sprintf` template, holes filled
      in order; the sanitized role name is the resource's key, the raw role
      name goes under `RoleName:`. The `Properties:` line keeps the template's
      trailing space. */
  function CfnYamlSnippet(roleName: string, description: string, trustYaml: string,
                          maxSessionDuration: Int32, path: string,
                          inlinePolicies: seq<string>, managedPolicyArns: seq<string>): string
  {
    Unlines(TemplateLines(roleName, description, trustYaml, maxSessionDuration, path,
                          inlinePolicies, managedPolicyArns))
  }

  /** The lines of the `Sprintf` template of `getCfnYamlSnippet`, holes
      filled in order. */
  function TemplateLines(roleName: string, description: string, trustYaml: string,
                         maxSessionDuration: Int32, path: string,
                         inlinePolicies: seq<string>, managedPolicyArns: seq<string>): seq<string>
  {
    HeaderLines(roleName, description)
      + ([Indent(trustYaml, TrustDocumentIndent)]
      + (SettingsLines(maxSessionDuration, path)
      + ([ListBlock(inlinePolicies, PolicyItem)]
      + (["    ManagedPolicyArns:"] + [ListBlock(managedPolicyArns, ArnItem)] + [""]))))
  }

  /** The template up to the trust document: the leading empty line, the
      resource key, the fixed `Type` and `Properties` lines, the raw role
      name and the description. */
  function HeaderLines(roleName: string, description: string): seq<string>
  {
    ["",
     Sanitize(roleName) + ":",
     "  Type: AWS::IAM::Role",
     "  Properties: ",
     "    RoleName: " + roleName,
     "    Description: " + description,
     "    AssumeRolePolicyDocument:"]
  }

  /** The template between the trust document and the policies. */
  function SettingsLines(maxSessionDuration: Int32, path: string): seq<string>
  {
    ["    MaxSessionDuration: " + FormatInt(maxSessionDuration as int),
     "    Path: '" + path + "'",
     "    Policies:"]
  }

  // ---------------------------------------------------------------------
  // The line structure of what is rendered

  /** The lines of one item after a list marker: the marker goes in front
      of the item's first line, its other lines follow unchanged. */
  function MarkedItem(item: string, marker: string): seq<string>
  {
    var ls := Lines(item);
    [marker + ls[0]] + ls[1..]
  }

  function MarkedItems(items: seq<string>, marker: string): seq<string>
  {
    if items == [] then [] else MarkedItem(items[0], marker) + MarkedItems(items[1..], marker)
  }

  /** The lines of a list block: the bare marker for no items. */
  function MarkedLines(items: seq<string>, marker: string): seq<string>
  {
    if items == [] then [marker] else MarkedItems(items, marker)
  }

  /** Two single lines followed by a text of any number of lines. */
  lemma TwoLinesThen(a: string, b: string, rest: string)
    requires '\n' !in a && '\n' !in b
    ensures Lines(Unlines([a, b, rest])) == [a, b] + Lines(rest)
  {
    assert [a, b] + [rest] == [a, b, rest];
    LinesOfUnlines([a, b] + [rest]);
    AllLinesAppend([a, b], [rest]);
    AllLinesOfSingleLines([a, b]);
    assert AllLines([rest]) == Lines(rest) + AllLines([]);
  }

  /** One inline policy as lines: its name, the `PolicyDocument:` key and
      every line of the document ten columns in. */
  lemma SegmentLines(policyName: string, documentYaml: string)
    requires '\n' !in policyName
    ensures Lines(InlineSegment(policyName, documentYaml))
         == ["PolicyName: " + policyName, "        PolicyDocument:"]
            + IndentedLines(Lines(documentYaml), PolicyDocumentIndent)
  {
    TwoLinesThen("PolicyName: " + policyName, "        PolicyDocument:",
                 Indent(documentYaml, PolicyDocumentIndent));
    LinesOfIndent(documentYaml, PolicyDocumentIndent);
  }

  /** A list block is the marker on the first line of every item, and only
      the bare marker when there is no item. */
  lemma {:induction false} ListBlockLines(items: seq<string>, marker: string)
    requires '\n' !in marker
    ensures Lines(ListBlock(items, marker)) == MarkedLines(items, marker)
  {
    if items == [] {
      assert ListBlock(items, marker) == marker;
      SplitFree(marker, '\n');
    } else if |items| == 1 {
      assert ListBlock(items, marker) == marker + items[0];
      SplitPrefix(marker, items[0], '\n');
      assert MarkedItems(items[1..], marker) == [];
    } else {
      var rest := items[1..];
      ListBlockLines(rest, marker);
      ListBlockCons(items, marker);
      SplitAround(marker + items[0], ListBlock(rest, marker), '\n');
      SplitPrefix(marker, items[0], '\n');
    }
  }

  lemma ListBlockCons(items: seq<string>, marker: string)
    requires |items| > 1
    ensures ListBlock(items, marker) == (marker + items[0]) + ['\n'] + ListBlock(items[1..], marker)
  {
    var sep := "\n" + marker;
    assert Join(items, sep) == items[0] + sep + Join(items[1..], sep);
    assert marker + (items[0] + sep + Join(items[1..], sep))
        == (marker + items[0]) + ['\n'] + (marker + Join(items[1..], sep));
  }

  /** Items that hold no line break are one line each, marker in front. */
  lemma {:induction false} MarkedSingleLines(items: seq<string>, marker: string)
    requires forall i :: 0 <= i < |items| ==> '\n' !in items[i]
    ensures MarkedItems(items, marker) == seq(|items|, i requires 0 <= i < |items| => marker + items[i])
  {
    if items != [] {
      SplitFree(items[0], '\n');
      MarkedSingleLines(items[1..], marker);
    }
  }

  /** The shape of the template: single lines around four texts that may
      span several lines. */
  lemma TemplateShape(header: seq<string>, trust: string, settings: seq<string>,
                      policies: string, arnsHeader: string, arns: string)
    requires forall i :: 0 <= i < |header| ==> '\n' !in header[i]
    requires forall i :: 0 <= i < |settings| ==> '\n' !in settings[i]
    requires '\n' !in arnsHeader
    ensures Lines(Unlines(header + ([trust] + (settings + ([policies] + ([arnsHeader] + [arns] + [""]))))))
         == header + (Lines(trust) + (settings + (Lines(policies) + ([arnsHeader] + Lines(arns) + [""]))))
  {
    var tail := [arnsHeader] + [arns] + [""];
    LinesOfUnlines(header + ([trust] + (settings + ([policies] + tail))));
    TailShape(arnsHeader, arns);
    OneText(policies, tail);
    AllLinesOfSingleLines(settings);
    AllLinesAppend(settings, [policies] + tail);
    OneText(trust, settings + ([policies] + tail));
    AllLinesOfSingleLines(header);
    AllLinesAppend(header, [trust] + (settings + ([policies] + tail)));
  }

  lemma OneText(text: string, rest: seq<string>)
    ensures AllLines([text] + rest) == Lines(text) + AllLines(rest)
  {
    assert ([text] + rest)[1..] == rest;
  }

  lemma TailShape(arnsHeader: string, arns: string)
    requires '\n' !in arnsHeader
    ensures AllLines([arnsHeader] + [arns] + [""]) == [arnsHeader] + Lines(arns) + [""]
  {
    assert [arnsHeader] + [arns] + [""] == [arnsHeader] + ([arns] + ([""] + []));
    OneText("", []);
    OneText(arns, [""] + []);
    OneText(arnsHeader, [arns] + ([""] + []));
    SplitFree(arnsHeader, '\n');
    SplitFree("", '\n');
  }

  /** The whole fragment, line by line, when the role name, description and
      path are single-line: the fixed template lines, the trust document six
      columns in, and the two list blocks. */
  lemma SnippetLines(roleName: string, description: string, trustYaml: string,
                     maxSessionDuration: Int32, path: string,
                     inlinePolicies: seq<string>, managedPolicyArns: seq<string>)
    requires '\n' !in roleName && '\n' !in description && '\n' !in path
    ensures Lines(CfnYamlSnippet(roleName, description, trustYaml, maxSessionDuration, path,
                                 inlinePolicies, managedPolicyArns))
         == HeaderLines(roleName, description)
            + (IndentedLines(Lines(trustYaml), TrustDocumentIndent)
            + (SettingsLines(maxSessionDuration, path)
            + (MarkedLines(inlinePolicies, PolicyItem)
            + (["    ManagedPolicyArns:"] + MarkedLines(managedPolicyArns, ArnItem) + [""]))))
  {
    var header := HeaderLines(roleName, description);
    var trust := Indent(trustYaml, TrustDocumentIndent);
    var settings := SettingsLines(maxSessionDuration, path);
    var policies := ListBlock(inlinePolicies, PolicyItem);
    var arns := ListBlock(managedPolicyArns, ArnItem);
    HeaderSingleLines(roleName, description);
    SettingsSingleLines(maxSessionDuration, path);
    TemplateShape(header, trust, settings, policies, "    ManagedPolicyArns:", arns);
    LinesOfIndent(trustYaml, TrustDocumentIndent);
    ListBlockLines(inlinePolicies, PolicyItem);
    ListBlockLines(managedPolicyArns, ArnItem);
  }

  lemma HeaderSingleLines(roleName: string, description: string)
    requires '\n' !in roleName && '\n' !in description
    ensures forall i :: 0 <= i < |HeaderLines(roleName, description)| ==> '\n' !in HeaderLines(roleName, description)[i]
  {
    SanitizeChars(roleName);
  }

  lemma SettingsSingleLines(maxSessionDuration: Int32, path: string)
    requires '\n' !in path
    ensures forall i :: 0 <= i < |SettingsLines(maxSessionDuration, path)| ==> '\n' !in SettingsLines(maxSessionDuration, path)[i]
  {
  }

  /** Whatever the other values, a single-line role name gives the
      fragment's key line and its `RoleName:` line: the name without its
      hyphens followed by a colon, and the raw name. */
  lemma SnippetKeyLines(roleName: string, description: string, trustYaml: string,
                        maxSessionDuration: Int32, path: string,
                        inlinePolicies: seq<string>, managedPolicyArns: seq<string>)
    requires '\n' !in roleName
    ensures
      var lines := Lines(CfnYamlSnippet(roleName, description, trustYaml, maxSessionDuration, path,
                                        inlinePolicies, managedPolicyArns));
      && |lines| > 4
      && lines[1] == Sanitize(roleName) + ":"
      && lines[4] == "    RoleName: " + roleName
  {
    var h := HeaderLines(roleName, description);
    var tl := TemplateLines(roleName, description, trustYaml, maxSessionDuration, path,
                            inlinePolicies, managedPolicyArns);
    HeaderFacts(roleName, description);
    assert tl == h + tl[7..];
    LinesAfterSingleLinePrefix(tl, h, tl[7..]);
  }

  lemma HeaderFacts(roleName: string, description: string)
    requires '\n' !in roleName
    ensures var h := HeaderLines(roleName, description);
      && |h| == 7
      && h[1] == Sanitize(roleName) + ":"
      && h[4] == "    RoleName: " + roleName
      && forall i :: 0 <= i < 5 ==> '\n' !in h[i]
  {
    SanitizeChars(roleName);
  }

  /** The first five lines of a join whose first five texts are single lines. */
  lemma LinesAfterSingleLinePrefix(texts: seq<string>, h: seq<string>, rest: seq<string>)
    requires texts == h + rest && |h| >= 5
    requires forall i :: 0 <= i < 5 ==> '\n' !in h[i]
    ensures var lines := Lines(Unlines(texts));
      |lines| > 4 && lines[1] == h[1] && lines[4] == h[4]
  {
    assert forall i :: 0 <= i < 5 ==> texts[i] == h[i];
    LinesOfSingleLinePrefix(texts, 5);
    var lines := Lines(Unlines(texts));
    assert lines[1] == lines[..5][1] && lines[4] == lines[..5][4];
  }

  /** With no inline and no managed policy, whatever the other values, the
      fragment ends with the two list keys, each followed by its bare
      marker, and the final empty line. */
  lemma SnippetEmptyListsTail(roleName: string, description: string, trustYaml: string,
                              maxSessionDuration: Int32, path: string)
    ensures
      var lines := Lines(CfnYamlSnippet(roleName, description, trustYaml, maxSessionDuration, path,
                                        [], []));
      && |lines| >= 5
      && lines[|lines| - 5..] == ["    Policies:", "      - ", "    ManagedPolicyArns:", "    - ", ""]
  {
    var tl := TemplateLines(roleName, description, trustYaml, maxSessionDuration, path, [], []);
    var tail := ["    Policies:", PolicyItem, "    ManagedPolicyArns:", ArnItem, ""];
    assert ListBlock([], PolicyItem) == PolicyItem && ListBlock([], ArnItem) == ArnItem;
    assert tl[|tl| - 5..] == tail;
    BareListLines();
    LinesOfSingleLineSuffix(tl, 5);
  }

  lemma BareListLines()
    ensures forall i :: 0 <= i < 5 ==>
      '\n' !in ["    Policies:", PolicyItem, "    ManagedPolicyArns:", ArnItem, ""][i]
  {
  }
}
