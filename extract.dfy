/** The data flow of `extractIamRole` and `getInlinePoliciesYaml` in
    cmd/root.go. The four IAM calls are replaced by what they answered for
    the requested role (`Directory`), and the two library conversions
    (`url.QueryUnescape`, `yaml.JSONToYAML`) by functions given as input
    (`Transcoder`). The fatal exits and the nil dereferences of the source
    become the `Err` values of `RenderError`. */
module Extract {
  import opened Strings
  import opened Indentation
  import opened Sanitizer
  import opened Decimal
  import opened CfnSnippet

  datatype Option<T> = None | Some(value: T)

  /** Why no fragment is produced. */
  datatype RenderError =
    | GetRoleFailed                        // log.Fatalf in getRole
    | ListRolePoliciesFailed               // log.Fatalf in getInlinePolicies
    | ListAttachedRolePoliciesFailed       // log.Fatalf in getManagedPolicies
    | GetRolePolicyFailed(policyName: string)  // nil output dereferenced in getInlinePoliciesYaml
    | DescriptionMissing                   // nil Description dereferenced in extractIamRole

  datatype Result<T> = Ok(value: T) | Err(error: RenderError)

  /** The fields of the IAM role that the renderer reads. */
  datatype Role = Role(
    description: Option<string>,
    path: string,
    maxSessionDuration: Int32,
    assumeRolePolicyDocument: string)

  datatype AttachedPolicy = AttachedPolicy(policyArn: string, policyName: string)

  /** The answers of the four IAM calls for the requested role: `None` for a
      call that failed; a policy name missing from `rolePolicies` is a
      `GetRolePolicy` call that failed. Listings are first pages, in the
      order the service returned them. */
  datatype Directory = Directory(
    getRole: Option<Role>,
    listRolePolicies: Option<seq<string>>,
    listAttachedRolePolicies: Option<seq<AttachedPolicy>>,
    rolePolicies: map<string, string>)

  /** `url.QueryUnescape` and `yaml.JSONToYAML`, whose errors the source
      discards. */
  datatype Transcoder = Transcoder(queryUnescape: string -> string, jsonToYaml: string -> string)

  /** The decode-and-convert step applied to every policy document. */
  function DocumentYaml(t: Transcoder, document: string): string
  {
    t.jsonToYaml(t.queryUnescape(document))
  }

  /** `getInlinePoliciesYaml`: one segment per policy name, in listing order.
      Fetches run in that order, and the first one that fails ends the
      render (the source dereferences the nil output and panics). */
  function InlinePoliciesYaml(t: Transcoder, rolePolicies: map<string, string>, names: seq<string>)
    : (r: Result<seq<string>>)
    ensures r.Ok? <==> forall i :: 0 <= i < |names| ==> names[i] in rolePolicies
    ensures r.Ok? ==> |r.value| == |names|
    ensures r.Ok? ==> forall i :: 0 <= i < |names| ==>
              r.value[i] == InlineSegment(names[i], DocumentYaml(t, rolePolicies[names[i]]))
    ensures r.Err? ==>
              exists k :: (0 <= k < |names| && names[k] !in rolePolicies
                           && r.error == GetRolePolicyFailed(names[k])
                           && forall j :: 0 <= j < k ==> names[j] in rolePolicies)
  {
    if names == [] then Ok([])
    else if names[0] !in rolePolicies then Err(GetRolePolicyFailed(names[0]))
    else
      match InlinePoliciesYaml(t, rolePolicies, names[1..])
      case Err(e) => Err(e)
      case Ok(rest) =>
        Ok([InlineSegment(names[0], DocumentYaml(t, rolePolicies[names[0]]))] + rest)
  }

  /** The `funk.Map` that keeps only the ARN of each attached policy. */
  function ManagedPolicyArns(attached: seq<AttachedPolicy>): seq<string>
  {
    seq(|attached|, i requires 0 <= i < |attached| => attached[i].policyArn)
  }

  /** Every answer the render needs is there. */
  predicate Complete(api: Directory)
  {
    && api.getRole.Some?
    && api.listRolePolicies.Some?
    && api.listAttachedRolePolicies.Some?
    && (forall i :: 0 <= i < |api.listRolePolicies.value| ==>
          api.listRolePolicies.value[i] in api.rolePolicies)
    && api.getRole.value.description.Some?
  }

  /** `extractIamRole` up to the output: the fragment for `roleName`, or the
      reason the source stops. Lookups fail in the source's order. */
  function ExtractIamRole(roleName: string, api: Directory, t: Transcoder): (r: Result<string>)
    ensures r.Ok? <==> Complete(api)
    ensures api.getRole.None? ==> r == Err(GetRoleFailed)
    ensures api.getRole.Some? && api.listRolePolicies.None? ==> r == Err(ListRolePoliciesFailed)
    ensures (api.getRole.Some? && api.listRolePolicies.Some? && api.listAttachedRolePolicies.None?)
              ==> r == Err(ListAttachedRolePoliciesFailed)
    ensures r.Err? && r.error.GetRolePolicyFailed? ==>
              api.listRolePolicies.Some? && r.error.policyName in api.listRolePolicies.value
              && r.error.policyName !in api.rolePolicies
    ensures r == Err(DescriptionMissing) ==>
              api.getRole.Some? && api.getRole.value.description.None?
              && api.listRolePolicies.Some? && api.listAttachedRolePolicies.Some?
              && forall i :: 0 <= i < |api.listRolePolicies.value| ==>
                   api.listRolePolicies.value[i] in api.rolePolicies
    ensures api.getRole.Some? && api.listRolePolicies.Some? && api.listAttachedRolePolicies.Some? ==>
              var names := api.listRolePolicies.value;
              forall k :: (0 <= k < |names| && names[k] !in api.rolePolicies
                           && forall j :: 0 <= j < k ==> names[j] in api.rolePolicies)
                          ==> r == Err(GetRolePolicyFailed(names[k]))
    ensures (api.getRole.Some? && api.listRolePolicies.Some? && api.listAttachedRolePolicies.Some?
             && (forall i :: 0 <= i < |api.listRolePolicies.value| ==>
                   api.listRolePolicies.value[i] in api.rolePolicies)
             && api.getRole.value.description.None?)
              ==> r == Err(DescriptionMissing)
  {
    if api.getRole.None? then Err(GetRoleFailed)
    else if api.listRolePolicies.None? then Err(ListRolePoliciesFailed)
    else if api.listAttachedRolePolicies.None? then Err(ListAttachedRolePoliciesFailed)
    else
      var role := api.getRole.value;
      match InlinePoliciesYaml(t, api.rolePolicies, api.listRolePolicies.value)
      case Err(e) => Err(e)
      case Ok(inlinePolicies) =>
        var arns := ManagedPolicyArns(api.listAttachedRolePolicies.value);
        var trustYaml := DocumentYaml(t, role.assumeRolePolicyDocument);
        if role.description.None? then Err(DescriptionMissing)
        else Ok(CfnYamlSnippet(roleName, role.description.value, trustYaml,
                               role.maxSessionDuration, role.path, inlinePolicies, arns))
  }

  // ---------------------------------------------------------------------
  // The rendered fragment, line by line

  /** The lines of one entry of the `Policies` list. */
  function PolicyEntryLines(policyName: string, documentYaml: string): seq<string>
  {
    ["      - PolicyName: " + policyName, "        PolicyDocument:"]
      + IndentedLines(Lines(documentYaml), PolicyDocumentIndent)
  }

  function PolicyEntriesLines(t: Transcoder, rolePolicies: map<string, string>, names: seq<string>)
    : seq<string>
    requires forall i :: 0 <= i < |names| ==> names[i] in rolePolicies
  {
    if names == [] then []
    else PolicyEntryLines(names[0], DocumentYaml(t, rolePolicies[names[0]]))
         + PolicyEntriesLines(t, rolePolicies, names[1..])
  }

  /** The lines of the `Policies` list: the bare marker when the role has no
      inline policy. */
  function PolicyBlockLines(t: Transcoder, rolePolicies: map<string, string>, names: seq<string>)
    : seq<string>
    requires forall i :: 0 <= i < |names| ==> names[i] in rolePolicies
  {
    if names == [] then [PolicyItem] else PolicyEntriesLines(t, rolePolicies, names)
  }

  /** The lines of the `ManagedPolicyArns` list: one ARN per line in the
      order of the listing, or the bare marker. */
  function ArnBlockLines(attached: seq<AttachedPolicy>): seq<string>
  {
    if attached == [] then [ArnItem]
    else seq(|attached|, i requires 0 <= i < |attached| => ArnItem + attached[i].policyArn)
  }

  /** The values pasted into the template hold no line break (nothing in
      the source escapes one). */
  predicate SingleLineValues(roleName: string, api: Directory)
    requires Complete(api)
  {
    var role := api.getRole.value;
    && '\n' !in roleName
    && '\n' !in role.description.value
    && '\n' !in role.path
    && (forall i :: 0 <= i < |api.listRolePolicies.value| ==> '\n' !in api.listRolePolicies.value[i])
    && (forall i :: 0 <= i < |api.listAttachedRolePolicies.value| ==>
          '\n' !in api.listAttachedRolePolicies.value[i].policyArn)
  }

  /** The marked segments are the policy entries, in listing order. */
  lemma {:induction false} SegmentsAsLines(t: Transcoder, rolePolicies: map<string, string>, names: seq<string>)
    requires forall i :: 0 <= i < |names| ==> names[i] in rolePolicies && '\n' !in names[i]
    ensures InlinePoliciesYaml(t, rolePolicies, names).Ok?
    ensures MarkedItems(InlinePoliciesYaml(t, rolePolicies, names).value, PolicyItem)
         == PolicyEntriesLines(t, rolePolicies, names)
  {
    if names != [] {
      var segments := InlinePoliciesYaml(t, rolePolicies, names).value;
      var yaml := DocumentYaml(t, rolePolicies[names[0]]);
      SegmentsAsLines(t, rolePolicies, names[1..]);
      assert segments[1..] == InlinePoliciesYaml(t, rolePolicies, names[1..]).value;
      EntryAsLines(names[0], yaml);
    }
  }

  /** One segment behind the `Policies` list marker. */
  lemma EntryAsLines(policyName: string, documentYaml: string)
    requires '\n' !in policyName
    ensures MarkedItem(InlineSegment(policyName, documentYaml), PolicyItem)
         == PolicyEntryLines(policyName, documentYaml)
  {
    SegmentLines(policyName, documentYaml);
    MarkerPrefix(policyName);
  }

  lemma MarkerPrefix(policyName: string)
    ensures PolicyItem + ("PolicyName: " + policyName) == "      - PolicyName: " + policyName
  {
    assert PolicyItem + "PolicyName: " == "      - PolicyName: ";
  }

  /** The ARN list block, line by line. */
  lemma ArnsAsLines(attached: seq<AttachedPolicy>)
    requires forall i :: 0 <= i < |attached| ==> '\n' !in attached[i].policyArn
    ensures MarkedLines(ManagedPolicyArns(attached), ArnItem) == ArnBlockLines(attached)
  {
    MarkedSingleLines(ManagedPolicyArns(attached), ArnItem);
  }

  /** The fragment rendered for a role, line by line: the resource keyed by
      the sanitized role name, the raw role name under `RoleName:`, every
      line of the converted trust document six columns in, the session
      duration in decimal, the path in single quotes, one entry per inline
      policy in listing order with its document ten columns in, and one
      line per managed-policy ARN in listing order. */
  lemma RenderedLines(roleName: string, api: Directory, t: Transcoder)
    requires Complete(api) && SingleLineValues(roleName, api)
    ensures ExtractIamRole(roleName, api, t).Ok?
    ensures
      var role := api.getRole.value;
      Lines(ExtractIamRole(roleName, api, t).value)
        == HeaderLines(roleName, role.description.value)
           + (IndentedLines(Lines(DocumentYaml(t, role.assumeRolePolicyDocument)), TrustDocumentIndent)
           + (SettingsLines(role.maxSessionDuration, role.path)
           + (PolicyBlockLines(t, api.rolePolicies, api.listRolePolicies.value)
           + (["    ManagedPolicyArns:"] + ArnBlockLines(api.listAttachedRolePolicies.value) + [""]))))
  {
    var role := api.getRole.value;
    var names := api.listRolePolicies.value;
    var segments := InlinePoliciesYaml(t, api.rolePolicies, names).value;
    var arns := ManagedPolicyArns(api.listAttachedRolePolicies.value);
    SnippetLines(roleName, role.description.value, DocumentYaml(t, role.assumeRolePolicyDocument),
                 role.maxSessionDuration, role.path, segments, arns);
    SegmentsAsLines(t, api.rolePolicies, names);
    ArnsAsLines(api.listAttachedRolePolicies.value);
  }
}

