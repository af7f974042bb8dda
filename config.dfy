/** The deployment settings (infra/lib/config.ts): four required CDK context
    values, checked in a fixed order, and the app and API host names derived
    from the base domain and an optional environment name. */
module Config {
  import opened Common

  const AccountPlaceholder := "REPLACE_WITH_PROD_ACCOUNT_ID"

  const AccountError := "cdk.json: \"prodAccount\" must be set to your AWS account ID"
  const RegionError := "cdk.json: \"prodRegion\" is required"
  const CertRegionError := "cdk.json: \"certRegion\" is required"
  const DomainError := "cdk.json: \"domainName\" is required"

  /** The context values `tryGetContext` returns; absent values are `None`. */
  datatype Context = Context(
    prodAccount: Option<string>,
    prodRegion: Option<string>,
    certRegion: Option<string>,
    domainName: Option<string>,
    envName: Option<string>)

  datatype SirRealtorConfig = SirRealtorConfig(
    prodAccount: string,
    prodRegion: string,
    certRegion: string,
    baseDomain: string,
    appDomain: string,
    apiDomain: string)

  /** `-<envName>` for a lower environment, nothing for production. */
  function EnvSuffix(envName: Option<string>): (s: string)
    ensures Truthy(envName) ==> |s| == |envName.value| + 1 && s[0] == '-' && s[1..] == envName.value
    ensures !Truthy(envName) ==> s == ""
  {
    if Truthy(envName) then "-" + envName.value else ""
  }

  function HostName(service: string, envName: Option<string>, baseDomain: string): string {
    service + EnvSuffix(envName) + "." + baseDomain
  }

  /** `getConfig`: the first failing check throws its message. */
  function GetConfig(c: Context): (r: Result<SirRealtorConfig, string>)
    ensures r.Ok? <==> Truthy(c.prodAccount) && c.prodAccount.value != AccountPlaceholder
                       && Truthy(c.prodRegion) && Truthy(c.certRegion) && Truthy(c.domainName)
  {
    if !Truthy(c.prodAccount) || c.prodAccount.value == AccountPlaceholder then Err(AccountError)
    else if !Truthy(c.prodRegion) then Err(RegionError)
    else if !Truthy(c.certRegion) then Err(CertRegionError)
    else if !Truthy(c.domainName) then Err(DomainError)
    else
      var base := c.domainName.value;
      Ok(SirRealtorConfig(c.prodAccount.value, c.prodRegion.value, c.certRegion.value, base,
                          HostName("app", c.envName, base), HostName("api", c.envName, base)))
  }

  /** The checks run in order: the account (missing or the placeholder),
      then the region, the certificate region and the domain; the error is
      that of the first check that fails, whatever the later values are. */
  lemma ErrorOrder(c: Context)
    ensures !Truthy(c.prodAccount) || c.prodAccount.value == AccountPlaceholder ==> GetConfig(c) == Err(AccountError)
    ensures (Truthy(c.prodAccount) && c.prodAccount.value != AccountPlaceholder && !Truthy(c.prodRegion))
      ==> GetConfig(c) == Err(RegionError)
    ensures (Truthy(c.prodAccount) && c.prodAccount.value != AccountPlaceholder && Truthy(c.prodRegion)
             && !Truthy(c.certRegion))
      ==> GetConfig(c) == Err(CertRegionError)
    ensures (Truthy(c.prodAccount) && c.prodAccount.value != AccountPlaceholder && Truthy(c.prodRegion)
             && Truthy(c.certRegion) && !Truthy(c.domainName))
      ==> GetConfig(c) == Err(DomainError)
  {
  }

  /** On success the account, regions and base domain pass through, and the
      two host names are `app<suffix>.<base>` and `api<suffix>.<base>`. */
  lemma ConfigValues(c: Context)
    requires GetConfig(c).Ok?
    ensures var cfg := GetConfig(c).value;
      && cfg.prodAccount == c.prodAccount.value && cfg.prodRegion == c.prodRegion.value
      && cfg.certRegion == c.certRegion.value && cfg.baseDomain == c.domainName.value
      && cfg.appDomain == "app" + EnvSuffix(c.envName) + "." + cfg.baseDomain
      && cfg.apiDomain == "api" + EnvSuffix(c.envName) + "." + cfg.baseDomain
  {
  }

  /** Without an environment name (absent or empty) the hosts are
      `app.<base>` and `api.<base>`; with one they are `app-<env>.<base>` and
      `api-<env>.<base>`. */
  lemma ProductionHosts(c: Context)
    requires GetConfig(c).Ok?
    ensures var cfg := GetConfig(c).value;
      !Truthy(c.envName) ==> cfg.appDomain == "app." + cfg.baseDomain && cfg.apiDomain == "api." + cfg.baseDomain
    ensures var cfg := GetConfig(c).value;
      Truthy(c.envName) ==> cfg.appDomain == "app-" + c.envName.value + "." + cfg.baseDomain
                            && cfg.apiDomain == "api-" + c.envName.value + "." + cfg.baseDomain
  {
  }

  /** The base domain and the environment name can be read back from the app
      host: it is the base domain after `app`, the suffix and a dot, so two
      configurations with different bases or environments never share an app
      host (for environment names without a dot). */
  lemma {:induction false} AppHostDeterminesBase(env1: Option<string>, base1: string, env2: Option<string>, base2: string)
    requires Truthy(env1) ==> '.' !in env1.value
    requires Truthy(env2) ==> '.' !in env2.value
    requires HostName("app", env1, base1) == HostName("app", env2, base2)
    ensures base1 == base2
    ensures EnvSuffix(env1) == EnvSuffix(env2)
  {
    var h := HostName("app", env1, base1);
    var p1 := "app" + EnvSuffix(env1);
    var p2 := "app" + EnvSuffix(env2);
    assert h == p1 + "." + base1 && h == p2 + "." + base2;
    assert '.' !in p1 by {
      forall i | 0 <= i < |p1| ensures p1[i] != '.' {
        if i >= 3 { assert p1[i] == EnvSuffix(env1)[i - 3]; }
      }
    }
    assert '.' !in p2 by {
      forall i | 0 <= i < |p2| ensures p2[i] != '.' {
        if i >= 3 { assert p2[i] == EnvSuffix(env2)[i - 3]; }
      }
    }
    FirstDot(p1, base1);
    FirstDot(p2, base2);
    assert |p1| == |p2|;
    assert p1 == h[..|p1|] == p2;
    assert base1 == h[|p1| + 1..] == base2;
    assert EnvSuffix(env1) == p1[3..] == p2[3..] == EnvSuffix(env2);
  }

  /** In `p + "." + b` with no dot in `p`, the first dot is at `|p|`. */
  lemma FirstDot(p: string, b: string)
    requires '.' !in p
    ensures var h := p + "." + b;
      h[|p|] == '.' && forall i :: 0 <= i < |p| ==> h[i] != '.'
  {
    var h := p + "." + b;
    forall i | 0 <= i < |p|
      ensures h[i] != '.'
    {
      assert h[i] == p[i];
    }
  }
}
