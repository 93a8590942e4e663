/** The scenarios of the repository's test file, and the general facts
    they rest on, stated on the model. */
module Scenarios {
  import opened Strings
  import opened Indentation
  import opened Sanitizer
  import opened CfnSnippet
  import opened Extract

  /** The mocked IAM answers of cmd/root_test.go. */
  function MockDirectory(): Directory
  {
    Directory(
      Some(Role(Some("mock-description"), "/", 1, "mock-policy-document")),
      Some(["policy1", "policy2"]),
      Some([AttachedPolicy("mock-policy-1-arn", "mock-policy-1")]),
      map["policy1" := "mock-policy-doc", "policy2" := "mock-policy-doc"])
  }

  lemma MockComplete(roleName: string, api: Directory)
    requires roleName == "test-role-name" && api == MockDirectory()
    ensures Complete(api) && SingleLineValues(roleName, api)
  {
    var names := api.listRolePolicies.value;
    assert names[0] in api.rolePolicies && names[1] in api.rolePolicies;
    assert '\n' !in names[0] && '\n' !in names[1];
    assert '\n' !in api.listAttachedRolePolicies.value[0].policyArn;
  }

  /** Where the lines of a role with two inline policies and one managed
      policy (the shape of the mocked role) land: the policy names in
      listing order, each followed by its document, then the ARN. */
  lemma TwoPoliciesOneArn(roleName: string, api: Directory, t: Transcoder)
    requires Complete(api) && SingleLineValues(roleName, api)
    requires |api.listRolePolicies.value| == 2 && |api.listAttachedRolePolicies.value| == 1
    ensures ExtractIamRole(roleName, api, t).Ok?
    ensures
      var lines := Lines(ExtractIamRole(roleName, api, t).value);
      var names := api.listRolePolicies.value;
      var n := |Lines(DocumentYaml(t, api.getRole.value.assumeRolePolicyDocument))|;
      var m0 := |Lines(DocumentYaml(t, api.rolePolicies[names[0]]))|;
      var m1 := |Lines(DocumentYaml(t, api.rolePolicies[names[1]]))|;
      && |lines| == 7 + n + 3 + (2 + m0) + (2 + m1) + 3
      && lines[10 + n] == "      - PolicyName: " + names[0]
      && lines[12 + n + m0] == "      - PolicyName: " + names[1]
      && lines[14 + n + m0 + m1] == "    ManagedPolicyArns:"
      && lines[15 + n + m0 + m1] == ArnItem + api.listAttachedRolePolicies.value[0].policyArn
  {
    var names := api.listRolePolicies.value;
    var docs := api.rolePolicies;
    var attached := api.listAttachedRolePolicies.value;
    var role := api.getRole.value;
    RenderedLines(roleName, api, t);
    TwoEntries(t, docs, names);
    OneArn(attached);
    LayoutIndices(HeaderLines(roleName, role.description.value),
                  IndentedLines(Lines(DocumentYaml(t, role.assumeRolePolicyDocument)), TrustDocumentIndent),
                  SettingsLines(role.maxSessionDuration, role.path),
                  PolicyEntryLines(names[0], DocumentYaml(t, docs[names[0]])),
                  PolicyEntryLines(names[1], DocumentYaml(t, docs[names[1]])),
                  ["    ManagedPolicyArns:"] + ArnBlockLines(attached) + [""]);
  }

  lemma TwoEntries(t: Transcoder, docs: map<string, string>, names: seq<string>)
    requires |names| == 2 && names[0] in docs && names[1] in docs
    ensures PolicyBlockLines(t, docs, names)
         == PolicyEntryLines(names[0], DocumentYaml(t, docs[names[0]]))
            + PolicyEntryLines(names[1], DocumentYaml(t, docs[names[1]]))
  {
    var rest := names[1..];
    assert rest[0] == names[1] && rest[1..] == [];
    assert PolicyEntriesLines(t, docs, rest[1..]) == [];
    var second := PolicyEntryLines(names[1], DocumentYaml(t, docs[names[1]]));
    assert PolicyEntriesLines(t, docs, rest) == second + [] == second;
  }

  lemma OneArn(attached: seq<AttachedPolicy>)
    requires |attached| == 1
    ensures ArnBlockLines(attached) == [ArnItem + attached[0].policyArn]
  {
  }

  /** Where the pieces of a layout land. */
  lemma LayoutIndices(h: seq<string>, tr: seq<string>, st: seq<string>,
                      e1: seq<string>, e2: seq<string>, rest: seq<string>)
    requires |e1| > 0 && |e2| > 0
    ensures
      var lines := h + (tr + (st + ((e1 + e2) + rest)));
      && |lines| == |h| + |tr| + |st| + |e1| + |e2| + |rest|
      && (forall i :: 0 <= i < |h| ==> lines[i] == h[i])
      && lines[|h| + |tr| + |st|] == e1[0]
      && lines[|h| + |tr| + |st| + |e1|] == e2[0]
      && (forall i :: 0 <= i < |rest| ==> lines[|h| + |tr| + |st| + |e1| + |e2| + i] == rest[i])
  {
  }

  /** The resource key and the `RoleName:` line of any rendered role whose
      name holds no line break. */
  lemma KeyLines(roleName: string, api: Directory, t: Transcoder)
    requires Complete(api) && '\n' !in roleName
    ensures ExtractIamRole(roleName, api, t).Ok?
    ensures
      var lines := Lines(ExtractIamRole(roleName, api, t).value);
      && |lines| > 4
      && lines[1] == Sanitize(roleName) + ":"
      && lines[4] == "    RoleName: " + roleName
  {
    var role := api.getRole.value;
    SnippetKeyLines(roleName, role.description.value, DocumentYaml(t, role.assumeRolePolicyDocument),
                    role.maxSessionDuration, role.path,
                    InlinePoliciesYaml(t, api.rolePolicies, api.listRolePolicies.value).value,
                    ManagedPolicyArns(api.listAttachedRolePolicies.value));
  }

  /** Rendering `test-role-name` (against the mocks, or any role the
      directory answers for in full): the sanitized name is the resource's
      key and the raw name goes under `RoleName:`, with no colon after it. */
  lemma MockRoleKey(roleName: string, api: Directory, t: Transcoder)
    requires roleName == "test-role-name"
    requires Complete(api)
    ensures ExtractIamRole(roleName, api, t).Ok?
    ensures
      var lines := Lines(ExtractIamRole(roleName, api, t).value);
      && |lines| > 4
      && lines[1] == "testrolename:"
      && lines[4] == "    RoleName: test-role-name"
  {
    TestNameLines(roleName, Sanitize(roleName) + ":", "    RoleName: " + roleName);
    KeyLines(roleName, api, t);
  }

  lemma TestNameLines(name: string, keyLine: string, nameLine: string)
    requires name == "test-role-name"
    requires keyLine == Sanitize(name) + ":" && nameLine == "    RoleName: " + name
    ensures '\n' !in name
    ensures keyLine == "testrolename:" && nameLine == "    RoleName: test-role-name"
  {
    SanitizeExample(name);
  }

  /** A role without inline or managed policies still renders: each list
      is its bare marker. */
  lemma NoPoliciesRendered(roleName: string, api: Directory, t: Transcoder)
    requires Complete(api)
    requires api.listRolePolicies.value == [] && api.listAttachedRolePolicies.value == []
    ensures ExtractIamRole(roleName, api, t).Ok?
    ensures
      var lines := Lines(ExtractIamRole(roleName, api, t).value);
      && |lines| >= 5
      && lines[|lines| - 5..] == ["    Policies:", "      - ", "    ManagedPolicyArns:", "    - ", ""]
  {
    var role := api.getRole.value;
    assert InlinePoliciesYaml(t, api.rolePolicies, []).value == [];
    assert ManagedPolicyArns([]) == [];
    SnippetEmptyListsTail(roleName, role.description.value, DocumentYaml(t, role.assumeRolePolicyDocument),
                          role.maxSessionDuration, role.path);
  }
}
