// api/v1alpha1/fenceagentsremediation_params.go: merging the fence parameters of a node
// from the spec and its secrets, and checking a spec at admission.
module Params {
  import opened Basics
  import opened Samples

  type Dict = map<string, string>

  // The parameter part of a remediation's spec.
  datatype Spec = Spec(
    sharedParameters: Dict,
    nodeParameters: map<string, Dict>,
    sharedSecretName: Option<string>,
    nodeSecretNames: Dict)

  // The secrets that can be read; a name that is not there cannot.
  type Secrets = map<string, Dict>

  // Go templates: the rendered value, or an error.
  type Renderer = (string, string) -> Option<string>

  const ACTION := "action"
  const DASHED_ACTION := "--action"
  const REBOOT := "reboot"
  const OFF := "off"
  const PLACEHOLDER := "temp-validation"

  datatype SecretParams = SecretParams(params: Dict, hasNodeTemplate: bool)

  // What an error of BuildFenceAgentParams says.
  datatype ParamError = SecretUnreadable | TemplateFailed | UnsupportedAction | DefinedTwice | MissingParams

  // BuildFenceAgentParams: the parameters, or an error and whether to retry.
  datatype Built = Built(params: Dict) | Refused(retry: bool)

  // pkg/template/template.go refuses an empty node name.
  function Render(render: Renderer, val: string, node: string): Option<string> {
    if node == "" then None else render(val, node)
  }

  // validateFenceAction
  predicate ActionOk(name: string, val: string) {
    (name == ACTION || name == DASHED_ACTION) ==> (val == "" || val == REBOOT || val == OFF)
  }

  // ---------------------------------------------------------------- what is built

  predicate ActionsOk(m: Dict) { forall k :: k in m ==> ActionOk(k, m[k]) }

  predicate Renders(m: Dict, node: string, render: Renderer) {
    forall k :: k in m ==> Render(render, m[k], node).Some?
  }

  predicate Templated(m: Dict, node: string, render: Renderer) {
    exists k :: k in m && Render(render, m[k], node) != Some(m[k])
  }

  function Rendered(m: Dict, node: string, render: Renderer): Dict
    requires Renders(m, node, render)
  {
    map k | k in m :: Render(render, m[k], node).value
  }

  // The node's own inline parameters.
  function OfNode(spec: Spec, node: string): Dict {
    map k | k in spec.nodeParameters && node in spec.nodeParameters[k] :: spec.nodeParameters[k][node]
  }

  function NodeSecret(spec: Spec, node: string, secrets: Secrets): Dict {
    if node in spec.nodeSecretNames && spec.nodeSecretNames[node] in secrets
    then secrets[spec.nodeSecretNames[node]] else map[]
  }

  function SharedSecret(spec: Spec, secrets: Secrets): Dict {
    if spec.sharedSecretName.Some? && spec.sharedSecretName.value in secrets
    then secrets[spec.sharedSecretName.value] else map[]
  }

  // Every secret the spec names for the node can be read and rendered.
  predicate SecretsReadable(spec: Spec, node: string, secrets: Secrets, render: Renderer) {
    && (spec.sharedSecretName.Some? ==> spec.sharedSecretName.value in secrets)
    && (node in spec.nodeSecretNames ==> spec.nodeSecretNames[node] in secrets)
    && Renders(SharedSecret(spec, secrets), node, render)
  }

  function SecretsOf(spec: Spec, node: string, secrets: Secrets, render: Renderer): SecretParams
    requires SecretsReadable(spec, node, secrets, render)
  {
    SecretParams(Rendered(SharedSecret(spec, secrets), node, render) + NodeSecret(spec, node, secrets),
                 Templated(SharedSecret(spec, secrets), node, render))
  }

  predicate InlineValid(spec: Spec, node: string, render: Renderer) {
    && ActionsOk(spec.sharedParameters) && Renders(spec.sharedParameters, node, render)
    && ActionsOk(OfNode(spec, node))
  }

  function Inline(spec: Spec, node: string, render: Renderer): Dict
    requires InlineValid(spec, node, render)
  {
    Rendered(spec.sharedParameters, node, render) + OfNode(spec, node)
  }

  // validateFenceAgentParams accepts: actions, templates, disjoint secrets, and something
  // that is specific to a node.
  predicate Valid(spec: Spec, node: string, sp: SecretParams, render: Renderer) {
    && InlineValid(spec, node, render)
    && ActionsOk(sp.params)
    && Inline(spec, node, render).Keys !! sp.params.Keys
    && Inline(spec, node, render) + sp.params != map[]
    && (spec.nodeParameters != map[] || Templated(spec.sharedParameters, node, render) || sp.hasNodeTemplate)
  }

  function WithAction(m: Dict): Dict {
    if DASHED_ACTION in m then m else m[DASHED_ACTION := REBOOT]
  }

  function BuiltFor(spec: Spec, node: string, secrets: Secrets, render: Renderer): Built {
    if !SecretsReadable(spec, node, secrets, render) then Refused(true)
    else
      var sp := SecretsOf(spec, node, secrets, render);
      if !Valid(spec, node, sp, render) then Refused(false)
      else Built(WithAction(Inline(spec, node, render) + sp.params))
  }

  // The defects of the secrets, and of the rest once the secrets are read.
  predicate SecretDefect(spec: Spec, node: string, secrets: Secrets, render: Renderer, e: ParamError) {
    match e
    case SecretUnreadable =>
      (spec.sharedSecretName.Some? && spec.sharedSecretName.value !in secrets) ||
      (node in spec.nodeSecretNames && spec.nodeSecretNames[node] !in secrets)
    case TemplateFailed => !Renders(SharedSecret(spec, secrets), node, render)
    case _ => false
  }

  predicate ParamsDefect(spec: Spec, node: string, sp: SecretParams, render: Renderer, e: ParamError) {
    match e
    case UnsupportedAction =>
      !ActionsOk(spec.sharedParameters) || !ActionsOk(OfNode(spec, node)) || !ActionsOk(sp.params)
    case TemplateFailed => !Renders(spec.sharedParameters, node, render)
    case DefinedTwice => exists k :: k in sp.params && (k in spec.sharedParameters || k in OfNode(spec, node))
    case MissingParams =>
      InlineValid(spec, node, render) &&
      (Inline(spec, node, render) + sp.params == map[] ||
       (spec.nodeParameters == map[] && !Templated(spec.sharedParameters, node, render) && !sp.hasNodeTemplate))
    case SecretUnreadable => false
  }

  predicate Defect(spec: Spec, node: string, secrets: Secrets, render: Renderer, e: ParamError) {
    || SecretDefect(spec, node, secrets, render, e)
    || (SecretsReadable(spec, node, secrets, render) &&
        ParamsDefect(spec, node, SecretsOf(spec, node, secrets, render), render, e))
  }

  // ---------------------------------------------------------------- the loops

  // collectSecretParams: a copy of the secret's data, key by key.
  method CollectSecretParams(secrets: Secrets, name: string) returns (r: Option<Dict>)
    ensures r == if name in secrets then Some(secrets[name]) else None
  {
    if name !in secrets { return None; }
    var data := secrets[name];
    var out: Dict := map[];
    var todo := data.Keys;
    while todo != {}
      invariant todo <= data.Keys
      invariant out == map k | k in data && k !in todo :: data[k]
      decreases todo
    {
      var k :| k in todo;
      out := out[k := data[k]];
      todo := todo - {k};
    }
    assert out == data;
    return Some(out);
  }

  // collectAllSecretParams
  method CollectAllSecretParams(spec: Spec, node: string, secrets: Secrets, render: Renderer)
    returns (r: Option<SecretParams>, e: ParamError)
    ensures r == if SecretsReadable(spec, node, secrets, render)
                 then Some(SecretsOf(spec, node, secrets, render)) else None
    ensures r.None? ==> SecretDefect(spec, node, secrets, render, e)
  {
    var secretParams: Dict, hasNodeTemplate := map[], false;
    if spec.sharedSecretName.Some? {
      var shared := CollectSecretParams(secrets, spec.sharedSecretName.value);
      if shared.None? { return None, SecretUnreadable; }
      var todo := shared.value.Keys;
      while todo != {}
        invariant todo <= shared.value.Keys
        invariant forall k :: k in shared.value && k !in todo ==> Render(render, shared.value[k], node).Some?
        invariant secretParams == map k | k in shared.value && k !in todo :: Render(render, shared.value[k], node).value
        invariant hasNodeTemplate <==>
                  exists k :: k in shared.value && k !in todo &&
                              Render(render, shared.value[k], node) != Some(shared.value[k])
        decreases todo
      {
        var k :| k in todo;
        var processed := Render(render, shared.value[k], node);
        if processed.None? { return None, TemplateFailed; }
        hasNodeTemplate := hasNodeTemplate || processed.value != shared.value[k];
        secretParams := secretParams[k := processed.value];
        todo := todo - {k};
      }
    }
    assert Renders(SharedSecret(spec, secrets), node, render);
    assert secretParams == Rendered(SharedSecret(spec, secrets), node, render);
    assert hasNodeTemplate <==> Templated(SharedSecret(spec, secrets), node, render);
    if node in spec.nodeSecretNames {
      var own := CollectSecretParams(secrets, spec.nodeSecretNames[node]);
      if own.None? { return None, SecretUnreadable; }
      secretParams := secretParams + own.value;
    }
    assert SecretsReadable(spec, node, secrets, render) ==>
        secretParams == SecretsOf(spec, node, secrets, render).params;
    return Some(SecretParams(secretParams, hasNodeTemplate)), SecretUnreadable;
  }

  // The first loop of validateFenceAgentParams.
  method AddShared(spec: Spec, node: string, render: Renderer)
    returns (r: Option<Dict>, templated: bool, e: ParamError)
    ensures r == if ActionsOk(spec.sharedParameters) && Renders(spec.sharedParameters, node, render)
                 then Some(Rendered(spec.sharedParameters, node, render)) else None
    ensures r.Some? ==> (templated <==> Templated(spec.sharedParameters, node, render))
    ensures r.None? ==> if e.UnsupportedAction? then !ActionsOk(spec.sharedParameters)
                        else e.TemplateFailed? && !Renders(spec.sharedParameters, node, render)
  {
    var shared := spec.sharedParameters;
    var params: Dict := map[];
    templated := false;
    var todo := shared.Keys;
    while todo != {}
      invariant todo <= shared.Keys
      invariant forall k :: k in shared && k !in todo ==>
                  ActionOk(k, shared[k]) && Render(render, shared[k], node).Some?
      invariant params == map k | k in shared && k !in todo :: Render(render, shared[k], node).value
      invariant templated <==>
                exists k :: k in shared && k !in todo && Render(render, shared[k], node) != Some(shared[k])
      decreases todo
    {
      var k :| k in todo;
      if !ActionOk(k, shared[k]) || k in params {
        return None, templated, if !ActionOk(k, shared[k]) then UnsupportedAction else DefinedTwice;
      }
      var processed := Render(render, shared[k], node);
      if processed.None? { return None, templated, TemplateFailed; }
      templated := templated || shared[k] != processed.value;
      params := params[k := processed.value];
      todo := todo - {k};
    }
    assert params == Rendered(shared, node, render);
    return Some(params), templated, TemplateFailed;
  }

  lemma OfNodeHas(spec: Spec, node: string, k: string)
    requires k in spec.nodeParameters
    ensures k in OfNode(spec, node) <==> node in spec.nodeParameters[k]
    ensures node in spec.nodeParameters[k] ==> OfNode(spec, node)[k] == spec.nodeParameters[k][node]
    ensures OfNode(spec, node).Keys <= spec.nodeParameters.Keys
  {}

  // The second loop: the node's values override the shared ones.
  method AddOfNode(spec: Spec, node: string, start: Dict) returns (r: Option<Dict>)
    ensures r == if ActionsOk(OfNode(spec, node)) then Some(start + OfNode(spec, node)) else None
  {
    ghost var own := OfNode(spec, node);
    assert own.Keys <= spec.nodeParameters.Keys;
    hide OfNode;
    var params := start;
    var todo := spec.nodeParameters.Keys;
    while todo != {}
      invariant todo <= spec.nodeParameters.Keys
      invariant forall k :: k in own && k !in todo ==> ActionOk(k, own[k])
      invariant forall k :: k in params <==> k in start || (k in own && k !in todo)
      invariant forall k :: k in own && k !in todo ==> params[k] == own[k]
      invariant forall k :: k in start && (k !in own || k in todo) ==> params[k] == start[k]
      decreases todo
    {
      var k :| k in todo;
      var values := spec.nodeParameters[k];
      OfNodeHas(spec, node, k);
      if node in values {
        if !ActionOk(k, values[node]) { return None; }
        params := params[k := values[node]];
      }
      todo := todo - {k};
    }
    assert params == start + own;
    return Some(params);
  }

  // The third loop: secrets must not define a parameter again.
  method AddSecrets(secretParams: Dict, start: Dict) returns (r: Option<Dict>, e: ParamError)
    ensures r == if ActionsOk(secretParams) && start.Keys !! secretParams.Keys
                 then Some(start + secretParams) else None
    ensures r.None? ==> if e.UnsupportedAction? then !ActionsOk(secretParams)
                        else e.DefinedTwice? && exists k :: k in secretParams && k in start
  {
    var params := start;
    var todo := secretParams.Keys;
    while todo != {}
      invariant todo <= secretParams.Keys
      invariant forall k :: k in secretParams && k !in todo ==> ActionOk(k, secretParams[k]) && k !in start
      invariant params == start + (map k | k in secretParams && k !in todo :: secretParams[k])
      decreases todo
    {
      var k :| k in todo;
      if !ActionOk(k, secretParams[k]) { return None, UnsupportedAction; }
      if k in params { return None, DefinedTwice; }
      params := params[k := secretParams[k]];
      todo := todo - {k};
    }
    assert params == start + secretParams;
    return Some(params), DefinedTwice;
  }

  method ValidateFenceAgentParams(spec: Spec, node: string, sp: SecretParams, render: Renderer)
    returns (r: Option<Dict>, e: ParamError)
    ensures r == if Valid(spec, node, sp, render) then Some(Inline(spec, node, render) + sp.params) else None
    ensures r.None? ==> ParamsDefect(spec, node, sp, render, e)
  {
    var shared, templated, sharedError := AddShared(spec, node, render);
    if shared.None? { return None, sharedError; }
    var inlined := AddOfNode(spec, node, shared.value);
    if inlined.None? { return None, UnsupportedAction; }
    var all, secretError := AddSecrets(sp.params, inlined.value);
    if all.None? { return None, secretError; }
    var onlySharedParamsWithoutTemplate := spec.nodeParameters == map[] && !templated && !sp.hasNodeTemplate;
    if all.value == map[] || onlySharedParamsWithoutTemplate { return None, MissingParams; }
    return all, MissingParams;
  }

  // Whatever order the maps are walked in, the result is the same map or a refusal of the
  // same kind, and the error of a refusal names a defect that is there.
  method BuildFenceAgentParams(spec: Spec, node: string, secrets: Secrets, render: Renderer)
    returns (r: Built, e: Option<ParamError>)
    ensures r == BuiltFor(spec, node, secrets, render)
    ensures e.Some? <==> r.Refused?
    ensures e.Some? ==> Defect(spec, node, secrets, render, e.value)
  {
    hide Valid, SecretsReadable, ParamsDefect, SecretDefect;
    var sp, secretError := CollectAllSecretParams(spec, node, secrets, render);
    if sp.None? { return Refused(true), Some(secretError); }
    var params, paramsError := ValidateFenceAgentParams(spec, node, sp.value, render);
    if params.None? { return Refused(false), Some(paramsError); }
    var out := params.value;
    if DASHED_ACTION !in out { out := out[DASHED_ACTION := REBOOT]; }
    return Built(out), None;
  }

  // ---------------------------------------------------------------- what it means

  // Text without a template renders to itself.
  ghost predicate PlainTextStays(render: Renderer) {
    forall node: string ::
      render("", node) == Some("") && render(REBOOT, node) == Some(REBOOT) && render(OFF, node) == Some(OFF)
  }

  // Main result.  It refuses exactly when there is a defect.  So when only one is there,
  // that one is reported: the event for an unsupported action is raised for a spec whose
  // only defect it is, and never for a spec without it.
  lemma RefusedExactly(spec: Spec, node: string, secrets: Secrets, render: Renderer)
    ensures BuiltFor(spec, node, secrets, render).Refused? <==>
              exists e: ParamError :: Defect(spec, node, secrets, render, e)
  {
    SecretsReadExactly(spec, node, secrets, render);
    if SecretsReadable(spec, node, secrets, render) {
      var sp := SecretsOf(spec, node, secrets, render);
      ValidExactly(spec, node, sp, render);
      if !Valid(spec, node, sp, render) {
        var e :| ParamsDefect(spec, node, sp, render, e);
        assert Defect(spec, node, secrets, render, e);
      }
    } else {
      assert Defect(spec, node, secrets, render, SecretUnreadable) ||
             Defect(spec, node, secrets, render, TemplateFailed);
    }
  }

  // An action that is neither empty nor reboot nor off, among these parameters.
  predicate BadAction(m: Dict) {
    exists k :: k in m && (k == "action" || k == "--action") && m[k] != "" && m[k] != "reboot" && m[k] != "off"
  }

  // Main result.  A refusal says unsupported action only for parameters of the node, shared
  // or secret, that hold such an action; and parameters that hold one are refused.
  lemma UnsupportedActionExactly(spec: Spec, node: string, secrets: Secrets, render: Renderer)
    requires SecretsReadable(spec, node, secrets, render)
    ensures var sp := SecretsOf(spec, node, secrets, render).params;
            && (Defect(spec, node, secrets, render, UnsupportedAction) <==>
                  BadAction(spec.sharedParameters) || BadAction(OfNode(spec, node)) || BadAction(sp))
            && (BadAction(spec.sharedParameters) || BadAction(OfNode(spec, node)) || BadAction(sp) ==>
                  BuiltFor(spec, node, secrets, render) == Refused(false))
  {
    BadActionExactly(spec.sharedParameters);
    BadActionExactly(OfNode(spec, node));
    BadActionExactly(SecretsOf(spec, node, secrets, render).params);
  }

  lemma BadActionExactly(m: Dict)
    ensures BadAction(m) <==> !ActionsOk(m)
  {}

  // Main result.  A refusal asks for a retry exactly when a secret that is named for the
  // node cannot be read, or a value of the shared one cannot be rendered.
  lemma RetryExactly(spec: Spec, node: string, secrets: Secrets, render: Renderer)
    ensures BuiltFor(spec, node, secrets, render) == Refused(true) <==>
            || (spec.sharedSecretName.Some? && spec.sharedSecretName.value !in secrets)
            || (node in spec.nodeSecretNames && spec.nodeSecretNames[node] !in secrets)
            || (spec.sharedSecretName.Some? && spec.sharedSecretName.value in secrets &&
                exists k :: k in secrets[spec.sharedSecretName.value] &&
                            (node == "" || render(secrets[spec.sharedSecretName.value][k], node) == None))
  {
    if !SecretsReadable(spec, node, secrets, render) && !Renders(SharedSecret(spec, secrets), node, render) {
      var k :| k in SharedSecret(spec, secrets) && Render(render, SharedSecret(spec, secrets)[k], node).None?;
    }
  }

  lemma SecretsReadExactly(spec: Spec, node: string, secrets: Secrets, render: Renderer)
    ensures SecretsReadable(spec, node, secrets, render) <==>
              !SecretDefect(spec, node, secrets, render, SecretUnreadable) &&
              !SecretDefect(spec, node, secrets, render, TemplateFailed)
  {}

  lemma ValidExactly(spec: Spec, node: string, sp: SecretParams, render: Renderer)
    ensures Valid(spec, node, sp, render) <==> forall e :: !ParamsDefect(spec, node, sp, render, e)
  {
    if !Valid(spec, node, sp, render) {
      if !InlineValid(spec, node, render) || !ActionsOk(sp.params) {
        assert ParamsDefect(spec, node, sp, render, UnsupportedAction) ||
               ParamsDefect(spec, node, sp, render, TemplateFailed);
      } else if k :| k in sp.params && k in Inline(spec, node, render) {
        assert ParamsDefect(spec, node, sp, render, DefinedTwice);
      } else {
        assert ParamsDefect(spec, node, sp, render, MissingParams);
      }
    }
  }

  // The value a parameter should have: the node's own, else the rendered shared one, else
  // that of the node's secret, else the rendered one of the shared secret.
  function Source(spec: Spec, node: string, secrets: Secrets, render: Renderer, k: string): Option<string> {
    if k in spec.nodeParameters && node in spec.nodeParameters[k] then Some(spec.nodeParameters[k][node])
    else if k in spec.sharedParameters then render(spec.sharedParameters[k], node)
    else if node in spec.nodeSecretNames && spec.nodeSecretNames[node] in secrets &&
            k in secrets[spec.nodeSecretNames[node]] then Some(secrets[spec.nodeSecretNames[node]][k])
    else if spec.sharedSecretName.Some? && spec.sharedSecretName.value in secrets &&
            k in secrets[spec.sharedSecretName.value] then render(secrets[spec.sharedSecretName.value][k], node)
    else if k == "--action" then Some("reboot")
    else None
  }

  // Main result.  A built map gives every parameter the node's inline value, else the
  // rendered shared one, else the node's secret, else the rendered shared secret, else the
  // default action, and nothing else.
  lemma BuiltSources(spec: Spec, node: string, secrets: Secrets, render: Renderer, k: string)
    requires BuiltFor(spec, node, secrets, render).Built?
    ensures var m := BuiltFor(spec, node, secrets, render).params;
            Source(spec, node, secrets, render, k) == if k in m then Some(m[k]) else None
  {
    var sp := SecretsOf(spec, node, secrets, render);
    assert k in sp.params <==> k in NodeSecret(spec, node, secrets) || k in SharedSecret(spec, secrets);
    assert k in Inline(spec, node, render) <==> k in OfNode(spec, node) || k in spec.sharedParameters;
  }

  // A built map never took an inline parameter and a secret of the same name.
  lemma BuiltDisjoint(spec: Spec, node: string, secrets: Secrets, render: Renderer)
    requires BuiltFor(spec, node, secrets, render).Built?
    ensures (OfNode(spec, node).Keys + spec.sharedParameters.Keys) !!
            (NodeSecret(spec, node, secrets).Keys + SharedSecret(spec, secrets).Keys)
  {
    var sp := SecretsOf(spec, node, secrets, render);
    assert sp.params.Keys == NodeSecret(spec, node, secrets).Keys + SharedSecret(spec, secrets).Keys;
    assert Inline(spec, node, render).Keys == OfNode(spec, node).Keys + spec.sharedParameters.Keys;
  }

  // Main result.  An action that reaches the fence agent is reboot, off or empty, and
  // --action is always there.
  lemma BuiltActions(spec: Spec, node: string, secrets: Secrets, render: Renderer)
    requires BuiltFor(spec, node, secrets, render).Built? && PlainTextStays(render)
    ensures var m := BuiltFor(spec, node, secrets, render).params;
            && "--action" in m
            && (forall k :: k in m && (k == "action" || k == "--action") ==> m[k] in ["", "reboot", "off"])
  {
    var m := BuiltFor(spec, node, secrets, render).params;
    var sp := SecretsOf(spec, node, secrets, render);
    forall k | k in m ensures ActionOk(k, m[k]) {
      if k in sp.params { assert ActionOk(k, sp.params[k]); }
      else if k in OfNode(spec, node) { assert ActionOk(k, OfNode(spec, node)[k]); }
      else if k in spec.sharedParameters { assert ActionOk(k, spec.sharedParameters[k]); }
    }
  }

  // ---------------------------------------------------------------- admission

  function NodesNamed(spec: Spec): set<string> {
    (set k, n | k in spec.nodeParameters && n in spec.nodeParameters[k] :: n) + spec.nodeSecretNames.Keys
  }

  // GetNodeNamesFromSpec: every node named in either map, once, in some order.
  method GetNodeNamesFromSpec(spec: Spec) returns (names: seq<string>)
    ensures NoRepeats(names)
    ensures forall n :: n in names <==> n in NodesNamed(spec)
  {
    var found: set<string> := {};
    var todo := spec.nodeParameters.Keys;
    while todo != {}
      invariant todo <= spec.nodeParameters.Keys
      invariant found == set k, n | k in spec.nodeParameters && k !in todo && n in spec.nodeParameters[k] :: n
      decreases todo
    {
      var k :| k in todo;
      found := found + spec.nodeParameters[k].Keys;
      todo := todo - {k};
    }
    found := found + spec.nodeSecretNames.Keys;
    names := [];
    var rest := found;
    while rest != {}
      invariant rest <= found && NoRepeats(names)
      invariant forall n :: n in names <==> n in found && n !in rest
      decreases rest
    {
      var n :| n in rest;
      names := names + [n];
      rest := rest - {n};
    }
  }

  predicate Configured(spec: Spec) {
    spec.sharedParameters != map[] || spec.nodeParameters != map[] || spec.sharedSecretName.Some? ||
    spec.nodeSecretNames != map[]
  }

  // The names admission tries.
  function Tried(spec: Spec): set<string> {
    if NodesNamed(spec) == {} then {PLACEHOLDER} else NodesNamed(spec)
  }

  predicate Admitted(spec: Spec, secrets: Secrets, render: Renderer) {
    Configured(spec) && forall n :: n in Tried(spec) ==> BuiltFor(spec, n, secrets, render).Built?
  }

  // The list of names to try: the placeholder when the spec names none.
  method NamesToTry(spec: Spec) returns (names: seq<string>)
    ensures forall n :: n in names <==> n in Tried(spec)
  {
    names := GetNodeNamesFromSpec(spec);
    if |names| == 0 {
      names := [PLACEHOLDER];
    } else {
      assert names[0] in NodesNamed(spec);
    }
  }

  // validateFenceAgentForNodes: accepted exactly when something is configured and every
  // name tried builds.
  method ValidateFenceAgentForNodes(spec: Spec, secrets: Secrets, render: Renderer) returns (accepted: bool)
    ensures accepted <==> Admitted(spec, secrets, render)
    ensures spec == Spec(map[], map[], None, map[]) ==> !accepted
  {
    hide BuiltFor, Tried;
    if !Configured(spec) { return false; }
    var names := NamesToTry(spec);
    for i := 0 to |names|
      invariant forall j :: 0 <= j < i ==> BuiltFor(spec, names[j], secrets, render).Built?
    {
      var r, _ := BuildFenceAgentParams(spec, names[i], secrets, render);
      if r.Refused? {
        assert names[i] in names;
        return false;
      }
    }
    return true;
  }

  // Main result.  What is accepted: something is configured, and the parameters build for
  // every node that is named, or for a placeholder when none is.
  lemma AdmittedExactly(spec: Spec, secrets: Secrets, render: Renderer)
    ensures Admitted(spec, secrets, render) <==>
            && (spec.sharedParameters != map[] || spec.nodeParameters != map[] ||
                spec.sharedSecretName != None || spec.nodeSecretNames != map[])
            && (forall k, n :: k in spec.nodeParameters && n in spec.nodeParameters[k] ==>
                  BuiltFor(spec, n, secrets, render).Built?)
            && (forall n :: n in spec.nodeSecretNames ==> BuiltFor(spec, n, secrets, render).Built?)
            && (spec.nodeSecretNames == map[] &&
                (forall k :: k in spec.nodeParameters ==> spec.nodeParameters[k] == map[])
                ==> BuiltFor(spec, "temp-validation", secrets, render).Built?)
  {
    hide BuiltFor;
    NamesNobody(spec);
  }

  lemma NamesNobody(spec: Spec)
    ensures NodesNamed(spec) == {} <==>
              (forall k :: k in spec.nodeParameters ==> spec.nodeParameters[k] == map[]) &&
              spec.nodeSecretNames == map[]
  {
    if k :| k in spec.nodeParameters && spec.nodeParameters[k] != map[] {
      var n :| n in spec.nodeParameters[k];
      assert n in NodesNamed(spec);
    }
    if n :| n in spec.nodeSecretNames { assert n in NodesNamed(spec); }
  }

  // The node a remediation is for: the annotation if there is one, else its own name.
  function GetNodeName(name: string, annotation: Option<string>): string {
    if annotation.Some? then annotation.value else name
  }

  // The secrets the spec refers to have not changed.
  ghost predicate SameSecrets(spec: Spec, node: string, before: Secrets, after: Secrets) {
    && (spec.sharedSecretName.Some? ==> Same(spec.sharedSecretName.value, before, after))
    && (node in spec.nodeSecretNames ==> Same(spec.nodeSecretNames[node], before, after))
  }

  ghost predicate Same(name: string, before: Secrets, after: Secrets) {
    (name in before <==> name in after) && (name in before ==> before[name] == after[name])
  }

  lemma BuiltFrame(spec: Spec, node: string, before: Secrets, after: Secrets, render: Renderer)
    requires SameSecrets(spec, node, before, after)
    ensures BuiltFor(spec, node, after, render) == BuiltFor(spec, node, before, render)
  {}

  // Main result.  A spec accepted at admission builds for every node it names, wherever
  // the remediation carries the node's name, in its annotation or else as its own, while
  // the secrets it refers to stay the same; and a spec that is refused fails to build for
  // a name that was tried.
  lemma AdmissionImpliesBuildable(spec: Spec, before: Secrets, after: Secrets, render: Renderer,
                                  name: string, annotation: Option<string>, node: string)
    requires Configured(spec) && SameSecrets(spec, node, before, after) && node in NodesNamed(spec)
    requires annotation == Some(node) || (annotation.None? && name == node)
    ensures Admitted(spec, before, render) ==> BuiltFor(spec, GetNodeName(name, annotation), after, render).Built?
    ensures !Admitted(spec, before, render) ==>
              exists n :: n in Tried(spec) && BuiltFor(spec, n, before, render).Refused?
  {
    BuiltFrame(spec, node, before, after, render);
  }
}
