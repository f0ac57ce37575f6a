/** The AWS preflight checks (operator/internal/cloud/aws): what each reads, when it is red, and which
    deployments can never be stopped by them. */
module Aws {
  import opened Values
  import opened Severity
  import Text
  import Preflight
  import Gate

  /** The provider's options. None is the nil list of concerns. */
  datatype Provider = Provider(
    concerns: Option<seq<string>>, principal: string, key: string, secrets: seq<string>, vpc: string,
    egressPath: string, controlPlane: string)

  /** One action's evaluation: whether it is allowed, and the action's name if the answer has one. */
  datatype Evaluation = Evaluation(allowed: bool, action: Option<string>)

  datatype Route = Route(destination: Option<string>, gateway: Option<string>)

  /** What AWS answers; None is an error. A caller without an ARN is an error too. `controlPlaneFirst` is
      the order in which the two FQDN targets are visited. */
  datatype Sdk = Sdk(
    caller: Option<string>,
    simulate: (string, seq<string>) -> Option<seq<Evaluation>>,
    keyEnabled: string -> Option<bool>,
    keyRotation: string -> Option<bool>,
    secretKey: string -> Option<Option<string>>,
    vpcsAvailable: string -> Option<seq<bool>>,
    natsAvailable: string -> Option<seq<bool>>,
    routeTables: string -> Option<seq<seq<Route>>>,
    controlPlaneFirst: bool)

  // Stage 0

  const CONCERNS := ["kms", "secrets", "iam", "cluster"]

  const DEPLOY_ACTION := map[
    "kms" := "kms:CreateKey", "secrets" := "secretsmanager:CreateSecret", "iam" := "iam:CreateRole",
    "cluster" := "eks:CreateCluster"]

  predicate Provisions(concerns: Option<seq<string>>, c: string)
  {
    concerns.None? || c in concerns.value
  }

  /** The keystone actions of the first `n` concerns that are provisioned, in their fixed order. */
  function ActionsUpTo(concerns: Option<seq<string>>, n: nat): seq<string>
    requires n <= |CONCERNS|
  {
    if n == 0 then []
    else ActionsUpTo(concerns, n - 1)
         + if Provisions(concerns, CONCERNS[n - 1]) then [DEPLOY_ACTION[CONCERNS[n - 1]]] else []
  }

  function Actions(concerns: Option<seq<string>>): seq<string>
  {
    ActionsUpTo(concerns, 4)
  }

  lemma ActionsAre(concerns: Option<seq<string>>)
    ensures Actions(concerns) ==
            (if Provisions(concerns, "kms") then ["kms:CreateKey"] else [])
            + (if Provisions(concerns, "secrets") then ["secretsmanager:CreateSecret"] else [])
            + (if Provisions(concerns, "iam") then ["iam:CreateRole"] else [])
            + (if Provisions(concerns, "cluster") then ["eks:CreateCluster"] else [])
  {
    assert ActionsUpTo(concerns, 0) == [];
    assert ActionsUpTo(concerns, 1) == if Provisions(concerns, "kms") then ["kms:CreateKey"] else [];
    assert ActionsUpTo(concerns, 2) ==
           ActionsUpTo(concerns, 1) + if Provisions(concerns, "secrets") then ["secretsmanager:CreateSecret"] else [];
    assert ActionsUpTo(concerns, 3) ==
           ActionsUpTo(concerns, 2) + if Provisions(concerns, "iam") then ["iam:CreateRole"] else [];
  }

  method ProvisionConcerns(p: Provider) returns (out: set<string>)
    ensures forall c :: c in CONCERNS ==> (c in out <==> Provisions(p.concerns, c))
  {
    out := {};
    if p.concerns.None? {
      for i := 0 to |CONCERNS|
        invariant forall c :: c in CONCERNS[..i] ==> c in out
      {
        out := out + {CONCERNS[i]};
      }
      return;
    }
    for i := 0 to |p.concerns.value|
      invariant forall c :: c in out <==> c in p.concerns.value[..i]
    {
      out := out + {p.concerns.value[i]};
    }
  }

  method RequiredDeployActions(p: Provider) returns (actions: seq<string>)
    ensures actions == Actions(p.concerns)
    ensures var provisions := (c: string) => p.concerns.None? || c in p.concerns.value;
            actions ==
              (if provisions("kms") then ["kms:CreateKey"] else [])
              + (if provisions("secrets") then ["secretsmanager:CreateSecret"] else [])
              + (if provisions("iam") then ["iam:CreateRole"] else [])
              + (if provisions("cluster") then ["eks:CreateCluster"] else [])
  {
    ActionsAre(p.concerns);
    var concerns := ProvisionConcerns(p);
    actions := [];
    for i := 0 to |CONCERNS|
      invariant actions == ActionsUpTo(p.concerns, i)
    {
      var c := CONCERNS[i];
      if c in concerns {
        if c in DEPLOY_ACTION {
          actions := actions + [DEPLOY_ACTION[c]];
        }
      }
    }
  }

  /** Whom the permissions are simulated for. */
  function Principal(p: Provider, sdk: Sdk): Option<string>
  {
    if p.principal != "" then Some(p.principal) else sdk.caller
  }

  /** A denial counts only if the answer names the action. */
  predicate NamesDenial(evaluations: seq<Evaluation>)
  {
    exists e :: e in evaluations && !e.allowed && e.action.Some?
  }

  predicate IdentityFails(p: Provider, sdk: Sdk)
  {
    && Actions(p.concerns) != []
    && (|| Principal(p, sdk).None?
        || sdk.simulate(Principal(p, sdk).value, Actions(p.concerns)).None?
        || NamesDenial(sdk.simulate(Principal(p, sdk).value, Actions(p.concerns)).value))
  }

  method CheckIdentityPermissions(p: Provider, sdk: Sdk) returns (r: seq<CheckResult>)
    ensures |r| == 1
    ensures r[0].status == if IdentityFails(p, sdk) then Red else if Actions(p.concerns) == [] then Amber else Green
    ensures r[0].status == Green <==> IdentityIsGreen(p, sdk)
    ensures var actions := Actions(p.concerns);
            var principal := if p.principal != "" then Some(p.principal) else sdk.caller;
            var answer := if principal.None? then None else sdk.simulate(principal.value, actions);
            var denied := answer.Some? && exists e :: e in answer.value && !e.allowed && e.action.Some?;
            r[0] ==
              if actions == [] then CheckResult("aws.identity", Amber)
              else if principal.None? then CheckResult("aws.identity.caller", Red)
              else if answer.None? then CheckResult("aws.identity.simulate", Red)
              else if denied then CheckResult("aws.identity.missing", Red)
              else CheckResult("aws.identity", Green)
  {
    var actions := RequiredDeployActions(p);
    if |actions| == 0 {
      return [CheckResult("aws.identity", Amber)];
    }
    var principal := p.principal;
    if principal == "" {
      if sdk.caller.None? {
        return [CheckResult("aws.identity.caller", Red)];
      }
      principal := sdk.caller.value;
    }
    var out := sdk.simulate(principal, actions);
    if out.None? {
      return [CheckResult("aws.identity.simulate", Red)];
    }
    var denied: seq<string> := [];
    for i := 0 to |out.value|
      invariant denied != [] <==> NamesDenial(out.value[..i])
    {
      var e := out.value[i];
      assert out.value[..i + 1] == out.value[..i] + [e];
      if !e.allowed {
        if e.action.Some? {
          denied := denied + [e.action.value];
        }
      }
    }
    assert out.value[..|out.value|] == out.value;
    if |denied| > 0 {
      return [CheckResult("aws.identity.missing", Red)];
    }
    return [CheckResult("aws.identity", Green)];
  }

  // What green means

  /** The answer speaks of each of the actions by name. */
  predicate Covers(evaluations: seq<Evaluation>, actions: seq<string>)
  {
    forall a :: a in actions ==> exists e :: e in evaluations && e.action == Some(a)
  }

  /** The answer allows each of the actions by name. */
  predicate Holds(evaluations: seq<Evaluation>, actions: seq<string>)
  {
    forall a :: a in actions ==> exists e :: e in evaluations && e.action == Some(a) && e.allowed
  }

  /** The check is green: something is provisioned, and nothing in the answers is found against it. */
  predicate IdentityIsGreen(p: Provider, sdk: Sdk)
  {
    Actions(p.concerns) != [] && !IdentityFails(p, sdk)
  }

  function Answer(p: Provider, sdk: Sdk): seq<Evaluation>
    requires IdentityIsGreen(p, sdk)
  {
    sdk.simulate(Principal(p, sdk).value, Actions(p.concerns)).value
  }

  /** Green means that the identity is allowed every probed action exactly when the answer speaks of each of them
      by name: one that is left out, or answered without its name, counts for nothing. */
  lemma GreenHoldsIff(p: Provider, sdk: Sdk)
    requires IdentityIsGreen(p, sdk)
    ensures Holds(Answer(p, sdk), Actions(p.concerns)) <==> Covers(Answer(p, sdk), Actions(p.concerns))
  {
    assert !NamesDenial(Answer(p, sdk));
  }

  /** Everything is provisioned, by this principal. */
  function Greenfield(principal: string): Provider
  {
    Provider(None, principal, "", [], "", "", "")
  }

  /** AWS with this answer to every simulation, and errors otherwise. */
  function Simulating(evaluations: seq<Evaluation>): Sdk
  {
    Failing().(simulate := (_, _) => Some(evaluations))
  }

  lemma GreenfieldActs(principal: string)
    ensures Actions(Greenfield(principal).concerns)[0] == "kms:CreateKey"
  {
    assert ActionsUpTo(None, 1) == ["kms:CreateKey"];
  }

  /** An answer that denies without naming the action, and an answer that is empty, are green, although neither
      allows the first action. */
  lemma NamelessDenialIsGreen()
    ensures IdentityIsGreen(Greenfield("arn"), Simulating([Evaluation(false, None)]))
    ensures !Holds([Evaluation(false, None)], Actions(None))
  {
    GreenfieldActs("arn");
    assert Actions(None)[0] in Actions(None);
  }

  lemma EmptyAnswerIsGreen()
    ensures IdentityIsGreen(Greenfield("arn"), Simulating([]))
    ensures !Holds([], Actions(None))
  {
    GreenfieldActs("arn");
    assert Actions(None)[0] in Actions(None);
  }

  // Stage 1

  predicate KeyFails(p: Provider, sdk: Sdk)
  {
    p.key != "" && sdk.keyEnabled(p.key) != Some(true)
  }

  /** `keyEnabled` is Some(false) also for an answer without metadata. */
  method CheckKMSKey(p: Provider, sdk: Sdk) returns (r: seq<CheckResult>)
    ensures |r| == 1
    ensures r[0].status ==
            if KeyFails(p, sdk) then Red
            else if p.key == "" || sdk.keyRotation(p.key) != Some(true) then Amber
            else Green
    ensures r[0].status == Red <==> p.key != "" && sdk.keyEnabled(p.key) != Some(true)
    ensures r[0].status == Green <==>
            p.key != "" && sdk.keyEnabled(p.key) == Some(true) && sdk.keyRotation(p.key) == Some(true)
    ensures r[0].id == "aws.kms.describe" <==> p.key != "" && sdk.keyEnabled(p.key) == None
    ensures r[0].id == "aws.kms.enabled" <==> p.key != "" && sdk.keyEnabled(p.key) == Some(false)
    ensures r[0].id == "aws.kms" <==> p.key == "" || r[0].status == Green
  {
    if p.key == "" {
      return [CheckResult("aws.kms", Amber)];
    }
    var out := sdk.keyEnabled(p.key);
    if out.None? {
      return [CheckResult("aws.kms.describe", Red)];
    }
    if !out.value {
      return [CheckResult("aws.kms.enabled", Red)];
    }
    var rot := sdk.keyRotation(p.key);
    if rot.None? {
      return [CheckResult("aws.kms.rotation", Amber)];
    }
    if !rot.value {
      return [CheckResult("aws.kms.rotation", Amber)];
    }
    return [CheckResult("aws.kms", Green)];
  }

  // Stage 2

  /** A secret is in order when it can be described and is encrypted with the configured key. */
  predicate SecretFails(p: Provider, sdk: Sdk, arn: string)
  {
    sdk.secretKey(arn) != Some(Some(p.key))
  }

  method CheckSecretsBackend(p: Provider, sdk: Sdk) returns (r: seq<CheckResult>)
    ensures p.secrets == [] ==> r == [CheckResult("aws.secrets", Amber)]
    ensures p.secrets != [] ==>
              && |r| == |p.secrets|
              && forall i :: 0 <= i < |r| ==> r[i].status == if SecretFails(p, sdk, p.secrets[i]) then Red else Green
    ensures p.secrets != [] ==>
              forall i :: 0 <= i < |r| ==>
                r[i] ==
                  if sdk.secretKey(p.secrets[i]) == Some(Some(p.key)) then CheckResult("aws.secrets", Green)
                  else if sdk.secretKey(p.secrets[i]).None? then CheckResult("aws.secrets.describe", Red)
                  else CheckResult("aws.secrets.encryption", Red)
  {
    if |p.secrets| == 0 {
      return [CheckResult("aws.secrets", Amber)];
    }
    r := [];
    for i := 0 to |p.secrets|
      invariant |r| == i
      invariant forall k :: 0 <= k < i ==>
                  r[k] ==
                    if sdk.secretKey(p.secrets[k]) == Some(Some(p.key)) then CheckResult("aws.secrets", Green)
                    else if sdk.secretKey(p.secrets[k]).None? then CheckResult("aws.secrets.describe", Red)
                    else CheckResult("aws.secrets.encryption", Red)
    {
      var out := sdk.secretKey(p.secrets[i]);
      if out.None? {
        r := r + [CheckResult("aws.secrets.describe", Red)];
        continue;
      }
      if out.value.None? || out.value.value != p.key {
        r := r + [CheckResult("aws.secrets.encryption", Red)];
        continue;
      }
      r := r + [CheckResult("aws.secrets", Green)];
    }
  }

  // Stage 3

  predicate VpcFails(p: Provider, sdk: Sdk)
  {
    var vpcs := sdk.vpcsAvailable(p.vpc);
    vpcs.None? || vpcs.value == [] || !vpcs.value[0]
  }

  function Destination(r: Route): string
  {
    if r.destination.Some? then r.destination.value else ""
  }

  /** A default route to a VPC endpoint, which is what the firewall's routes look like. */
  predicate ThroughFirewall(r: Route)
  {
    Destination(r) == "0.0.0.0/0" && r.gateway.Some? && "vpce-" <= r.gateway.value
  }

  predicate OpensMetadata(r: Route)
  {
    Destination(r) == "169.254.169.254/32"
  }

  predicate SomeRoute(tables: seq<seq<Route>>, p: Route -> bool)
  {
    exists t, r :: t in tables && r in t && p(r)
  }

  /** The routes that the two flags look for, spelled out. */
  lemma RoutesAre(p: Provider, sdk: Sdk)
    requires sdk.routeTables(p.vpc).Some?
    ensures var tables := sdk.routeTables(p.vpc).value;
            && (SomeRoute(tables, ThroughFirewall) <==>
                exists table, route ::
                  && table in tables && route in table && route.destination == Some("0.0.0.0/0")
                  && route.gateway.Some? && |route.gateway.value| >= 5 && route.gateway.value[..5] == "vpce-")
            && (SomeRoute(tables, OpensMetadata) <==>
                exists table, route ::
                  table in tables && route in table && route.destination == Some("169.254.169.254/32"))
  {
    forall route: Route
      ensures ThroughFirewall(route) <==>
              && route.destination == Some("0.0.0.0/0")
              && route.gateway.Some? && |route.gateway.value| >= 5 && route.gateway.value[..5] == "vpce-"
      ensures OpensMetadata(route) <==> route.destination == Some("169.254.169.254/32")
    {
      assert |"0.0.0.0/0"| == 9 && |"169.254.169.254/32"| == 18 && |"vpce-"| == 5;
    }
  }

  /** Only with an egress path configured and route tables to read can the firewall be found missing. */
  predicate FirewallFails(p: Provider, sdk: Sdk)
  {
    && p.egressPath != ""
    && sdk.routeTables(p.vpc).Some?
    && !SomeRoute(sdk.routeTables(p.vpc).value, ThroughFirewall)
  }

  function FirewallResults(p: Provider, sdk: Sdk): seq<CheckResult>
  {
    if p.egressPath == "" || sdk.routeTables(p.vpc).None? then [CheckResult("egress.firewall_inpath", Amber)]
    else
      [CheckResult("egress.firewall_inpath", if FirewallFails(p, sdk) then Red else Green),
       CheckResult("egress.metadata_block", if SomeRoute(sdk.routeTables(p.vpc).value, OpensMetadata) then Amber
         else Green)]
  }

  /** The scan of the route tables: both flags only ever go up. */
  method CheckFirewallInPath(p: Provider, sdk: Sdk) returns (r: seq<CheckResult>)
    ensures r == FirewallResults(p, sdk)
    ensures p.egressPath == "" || sdk.routeTables(p.vpc).None? ==> r == [CheckResult("egress.firewall_inpath", Amber)]
    ensures p.egressPath != "" && sdk.routeTables(p.vpc).Some? ==>
              var tables := sdk.routeTables(p.vpc).value;
              var inPath :=
                exists table, route ::
                  && table in tables && route in table && route.destination == Some("0.0.0.0/0")
                  && route.gateway.Some? && |route.gateway.value| >= 5 && route.gateway.value[..5] == "vpce-";
              var open :=
                exists table, route ::
                  table in tables && route in table && route.destination == Some("169.254.169.254/32");
              && |r| == 2
              && r[0] == CheckResult("egress.firewall_inpath", if inPath then Green else Red)
              && r[1] == CheckResult("egress.metadata_block", if open then Amber else Green)
  {
    if p.egressPath == "" {
      return [CheckResult("egress.firewall_inpath", Amber)];
    }
    var tables := sdk.routeTables(p.vpc);
    if tables.None? {
      return [CheckResult("egress.firewall_inpath", Amber)];
    }
    var inPath, metadataOpen := false, false;
    for i := 0 to |tables.value|
      invariant inPath <==> SomeRoute(tables.value[..i], ThroughFirewall)
      invariant metadataOpen <==> SomeRoute(tables.value[..i], OpensMetadata)
    {
      var table := tables.value[i];
      var before := tables.value[..i];
      for j := 0 to |table|
        invariant inPath <==> SomeRoute(before, ThroughFirewall) || exists r :: r in table[..j] && ThroughFirewall(r)
        invariant metadataOpen <==> SomeRoute(before, OpensMetadata) || exists r :: r in table[..j] && OpensMetadata(r)
      {
        var route := table[j];
        assert table[..j + 1] == table[..j] + [route];
        if ThroughFirewall(route) {
          inPath := true;
        }
        if OpensMetadata(route) {
          metadataOpen := true;
        }
      }
      assert table[..|table|] == table;
      assert tables.value[..i + 1] == before + [table];
    }
    assert tables.value[..|tables.value|] == tables.value;
    RoutesAre(p, sdk);
    r := [CheckResult("egress.firewall_inpath", if inPath then Green else Red),
          CheckResult("egress.metadata_block", if metadataOpen then Amber else Green)];
  }

  predicate Natted(p: Provider, sdk: Sdk)
  {
    sdk.natsAvailable(p.vpc).Some? && true in sdk.natsAvailable(p.vpc).value
  }

  function FqdnTargets(p: Provider, sdk: Sdk): seq<(string, string)>
  {
    if sdk.controlPlaneFirst then [("egress.controlplane_fqdn", p.controlPlane), ("egress.ghcr", "ghcr.io")]
    else [("egress.ghcr", "ghcr.io"), ("egress.controlplane_fqdn", p.controlPlane)]
  }

  const DEFERRED := [CheckResult("egress.cloud_api", Amber), CheckResult("egress.observability", Amber)]

  function FqdnResults(p: Provider, sdk: Sdk): seq<CheckResult>
  {
    var controlPlane := if p.controlPlane == "" then [] else [CheckResult("egress.controlplane_fqdn", Amber)];
    var registry := [CheckResult("egress.ghcr", Amber)];
    (if sdk.controlPlaneFirst then controlPlane + registry else registry + controlPlane) + DEFERRED
  }

  method CheckFqdnReachability(p: Provider, sdk: Sdk) returns (r: seq<CheckResult>)
    ensures r == FqdnResults(p, sdk)
    ensures r ==
            (if p.controlPlane == "" then [CheckResult("egress.ghcr", Amber)]
             else if sdk.controlPlaneFirst
             then [CheckResult("egress.controlplane_fqdn", Amber), CheckResult("egress.ghcr", Amber)]
             else [CheckResult("egress.ghcr", Amber), CheckResult("egress.controlplane_fqdn", Amber)])
            + [CheckResult("egress.cloud_api", Amber), CheckResult("egress.observability", Amber)]
  {
    var targets := FqdnTargets(p, sdk);
    r := [];
    for i := 0 to 2
      invariant i == 0 ==> r == []
      invariant i == 1 ==> r == if targets[0].1 == "" then [] else [CheckResult(targets[0].0, Amber)]
      invariant i == 2 ==> r + DEFERRED == FqdnResults(p, sdk)
    {
      if targets[i].1 == "" {
        continue;
      }
      r := r + [CheckResult(targets[i].0, Amber)];
    }
    r := r + DEFERRED;
  }

  function EgressResults(p: Provider, sdk: Sdk): seq<CheckResult>
  {
    if p.vpc == "" then [CheckResult("egress.vpc", Amber)]
    else if VpcFails(p, sdk) then [CheckResult("egress.vpc", Red)]
    else
      [CheckResult("egress.vpc", Green), CheckResult("egress.nat", if Natted(p, sdk) then Green else Amber)]
      + FirewallResults(p, sdk) + FqdnResults(p, sdk)
  }

  method CheckEgress(p: Provider, sdk: Sdk) returns (results: seq<CheckResult>)
    ensures results == EgressResults(p, sdk)
  {
    if p.vpc == "" {
      return [CheckResult("egress.vpc", Amber)];
    }
    var vpcs := sdk.vpcsAvailable(p.vpc);
    if vpcs.None? {
      return [CheckResult("egress.vpc", Red)];
    }
    if |vpcs.value| == 0 || !vpcs.value[0] {
      return [CheckResult("egress.vpc", Red)];
    }
    results := [CheckResult("egress.vpc", Green)];
    var nats := sdk.natsAvailable(p.vpc);
    if nats.None? {
      results := results + [CheckResult("egress.nat", Amber)];
    } else {
      var hasAvailableNat := false;
      for i := 0 to |nats.value|
        invariant !hasAvailableNat && true !in nats.value[..i]
      {
        if nats.value[i] {
          hasAvailableNat := true;
          break;
        }
      }
      assert hasAvailableNat <==> Natted(p, sdk);
      if !hasAvailableNat {
        results := results + [CheckResult("egress.nat", Amber)];
      } else {
        results := results + [CheckResult("egress.nat", Green)];
      }
    }
    var firewall := CheckFirewallInPath(p, sdk);
    var fqdns := CheckFqdnReachability(p, sdk);
    results := results + firewall + fqdns;
  }

  predicate EgressFails(p: Provider, sdk: Sdk)
  {
    p.vpc != "" && (VpcFails(p, sdk) || FirewallFails(p, sdk))
  }

  lemma EgressRedIff(p: Provider, sdk: Sdk)
    ensures Gate.AnyRed(EgressResults(p, sdk)) <==> EgressFails(p, sdk)
  {
  }

  /** The results of stage 3 over what AWS answers: only an available VPC is looked into, a NAT gateway counts
      when one is available, and the rest is the firewall's results and the targets nobody tries to reach. */
  lemma EgressTells(p: Provider, sdk: Sdk)
    ensures p.vpc == "" ==> EgressResults(p, sdk) == [CheckResult("egress.vpc", Amber)]
    ensures p.vpc != "" ==>
              var vpcs, nats := sdk.vpcsAvailable(p.vpc), sdk.natsAvailable(p.vpc);
              if vpcs.Some? && |vpcs.value| > 0 && vpcs.value[0] then
                && |EgressResults(p, sdk)| >= 2
                && EgressResults(p, sdk)[0] == CheckResult("egress.vpc", Green)
                && EgressResults(p, sdk)[1] ==
                   CheckResult("egress.nat", if nats.Some? && true in nats.value then Green else Amber)
                && EgressResults(p, sdk)[2..] == FirewallResults(p, sdk) + FqdnResults(p, sdk)
              else
                EgressResults(p, sdk) == [CheckResult("egress.vpc", Red)]
  {
    if p.vpc != "" && !VpcFails(p, sdk) {
      var first := [CheckResult("egress.vpc", Green),
        CheckResult("egress.nat", if Natted(p, sdk) then Green else Amber)];
      assert EgressResults(p, sdk) == first + (FirewallResults(p, sdk) + FqdnResults(p, sdk));
    }
  }

  /** And when stage 3 is red, over what is configured and answered. */
  lemma EgressFailsIff(p: Provider, sdk: Sdk)
    ensures EgressFails(p, sdk) <==>
            && p.vpc != ""
            && (|| (var vpcs := sdk.vpcsAvailable(p.vpc); vpcs.None? || |vpcs.value| == 0 || !vpcs.value[0])
                || (&& p.egressPath != "" && sdk.routeTables(p.vpc).Some?
                    && forall table, route ::
                         table in sdk.routeTables(p.vpc).value && route in table
                         && route.destination == Some("0.0.0.0/0") && route.gateway.Some? ==>
                           |route.gateway.value| < 5 || route.gateway.value[..5] != "vpce-"))
  {
    if sdk.routeTables(p.vpc).Some? {
      RoutesAre(p, sdk);
    }
  }

  // The four checks together

  predicate SecretsFail(p: Provider, sdk: Sdk)
  {
    exists arn :: arn in p.secrets && SecretFails(p, sdk, arn)
  }

  /** A cloud whose four lists of results are red exactly where the checks fail. */
  predicate Reports(p: Provider, sdk: Sdk, c: Gate.Cloud)
  {
    && (Gate.AnyRed(c.identity) <==> IdentityFails(p, sdk))
    && (Gate.AnyRed(c.kms) <==> KeyFails(p, sdk))
    && (Gate.AnyRed(c.secrets) <==> SecretsFail(p, sdk))
    && (Gate.AnyRed(c.egress) <==> EgressFails(p, sdk))
  }

  method CheckCloud(p: Provider, sdk: Sdk) returns (c: Gate.Cloud)
    ensures Reports(p, sdk, c)
  {
    var identity := CheckIdentityPermissions(p, sdk);
    var kms := CheckKMSKey(p, sdk);
    var secrets := CheckSecretsBackend(p, sdk);
    var egress := CheckEgress(p, sdk);
    EgressRedIff(p, sdk);
    forall i | 0 <= i < |secrets| && p.secrets != [] ensures p.secrets[i] in p.secrets && secrets[i] in secrets {
    }
    assert identity[0] in identity && kms[0] in kms;
    c := Gate.Cloud(identity, kms, secrets, egress);
  }

  /** Nothing of the deployment's own is configured: no known concern, no key, no secret, no VPC. */
  predicate BringsItsOwn(p: Provider)
  {
    Actions(p.concerns) == [] && p.key == "" && p.secrets == [] && p.vpc == ""
  }

  function Failing(): Sdk
  {
    Sdk(None, (_, _) => None, _ => None, _ => None, _ => None, _ => None, _ => None, _ => None, false)
  }

  /** No answer of AWS can turn any check red exactly when nothing is configured: every red traces to a
      configured concern, and every configured concern can be found missing. */
  lemma NeverRedIff(p: Provider)
    ensures (forall sdk, c :: Reports(p, sdk, c) ==> !Gate.CloudRed(c)) <==> BringsItsOwn(p)
  {
    if !BringsItsOwn(p) {
      var sdk := Failing();
      assert IdentityFails(p, sdk) || KeyFails(p, sdk) || SecretsFail(p, sdk) || EgressFails(p, sdk) by {
        if p.secrets != [] {
          assert p.secrets[0] in p.secrets && SecretFails(p, sdk, p.secrets[0]);
        }
        if p.vpc != "" { assert VpcFails(p, sdk); }
        if Actions(p.concerns) != [] && p.principal != "" {
          assert sdk.simulate(p.principal, Actions(p.concerns)) == None;
        }
      }
      var red, none := [CheckResult("", Red)], [];
      assert red[0] in red;
      var c := Gate.Cloud(
        if IdentityFails(p, sdk) then red else none, if KeyFails(p, sdk) then red else none,
        if SecretsFail(p, sdk) then red else none, if EgressFails(p, sdk) then red else none);
      assert Reports(p, sdk, c) && Gate.CloudRed(c);
    }
  }

  /** So such a deployment always gets as far as the Kubernetes stages, in either mode. */
  lemma BringsItsOwnReachesKubernetes(p: Provider, sdk: Sdk, c: Gate.Cloud, k: Gate.Cluster, mode: string)
    requires BringsItsOwn(p) && Reports(p, sdk, c) && mode in {"full", "agnostic"}
    ensures Preflight.StagesOf(Gate.CloudChecks(c) + Gate.K8sChecks(k), Gate.ModeMask(mode))[4].status != Skipped
  {
    NeverRedIff(p);
    assert !Gate.CloudRed(c);
    Gate.Stage4Ran(c, k, mode);
  }

  // From the environment

  lemma {:induction false} NoActionsIff(concerns: Option<seq<string>>, n: nat)
    requires n <= |CONCERNS|
    ensures ActionsUpTo(concerns, n) == [] <==> forall i :: 0 <= i < n ==> !Provisions(concerns, CONCERNS[i])
  {
    if n > 0 {
      NoActionsIff(concerns, n - 1);
    }
  }

  const ALL_ACTIONS := ["kms:CreateKey", "secretsmanager:CreateSecret", "iam:CreateRole", "eks:CreateCluster"]

  predicate OnlySeparators(text: string)
  {
    forall c :: c in text ==> c == ',' || Text.IsSpace(c)
  }

  predicate NamesConcern(text: string)
  {
    Text.EntriesOf(text).Some? && exists c :: c in CONCERNS && c in Text.EntriesOf(text).value
  }

  /** The variable that lists the concerns: with nothing but separators it stands for all four, and it
      stands for none exactly when it has some entry but no known one. */
  lemma ConcernsFromText(text: string)
    ensures OnlySeparators(text) ==> Actions(Text.EntriesOf(text)) == ALL_ACTIONS
    ensures Actions(Text.EntriesOf(text)) == [] <==> !OnlySeparators(text) && !NamesConcern(text)
  {
    Text.NilIff(text);
    NoActionsIff(Text.EntriesOf(text), 4);
    if Text.EntriesOf(text).None? {
      assert ActionsUpTo(None, 1) == ALL_ACTIONS[..1] && ActionsUpTo(None, 2) == ALL_ACTIONS[..2];
      assert ActionsUpTo(None, 3) == ALL_ACTIONS[..3];
    }
  }

  /** A list of concerns survives the environment iff it is not empty: the empty list, which means that
      nothing is provisioned, comes back as the nil list, which means that everything is. */
  lemma ConcernsSurviveIff(names: seq<string>)
    requires forall n :: n in names ==> Text.Clean(n)
    ensures Text.EntriesOf(Text.Join(names, ',')) == Some(names) <==> names != []
    ensures names == [] ==> Actions(Some(names)) == [] && Actions(Text.EntriesOf(Text.Join(names, ','))) == ALL_ACTIONS
  {
    Text.NamesRoundTrip(names);
    NoActionsIff(Some(names), 4);
    ConcernsFromText(Text.Join(names, ','));
    Text.NilIff(Text.Join(names, ','));
  }

  /** The environment variables, as text. */
  datatype Environment = Environment(
    concerns: string, principal: string, key: string, secrets: string, vpc: string, egressPath: string,
      controlPlane: string)

  function FromEnvironment(e: Environment): Provider
  {
    var secrets := Text.EntriesOf(e.secrets);
    Provider(
      Text.EntriesOf(e.concerns), e.principal, e.key, if secrets.None? then [] else secrets.value, e.vpc, e.egressPath,
      e.controlPlane)
  }

  /** How to bring one's own everything from the command line: the list of concerns must have an entry,
      and none that is known; leaving it unset provisions everything. */
  lemma BringsItsOwnFromTextIff(e: Environment)
    ensures BringsItsOwn(FromEnvironment(e)) <==>
            !OnlySeparators(e.concerns) && !NamesConcern(e.concerns) && e.key == "" && OnlySeparators(e.secrets)
              && e.vpc == ""
  {
    ConcernsFromText(e.concerns);
    Text.NilIff(e.secrets);
  }
}
