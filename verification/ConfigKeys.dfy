/** The tenant_config keys of a tenant's sign-in policy. */
module ConfigKeys {
  const AUTO_ADD := "auth:auto_add"
  const PROVIDERS := "auth:providers"
  const CHECKS := "auth:checks:"

  function ChecksKey(provider: string): (key: string)
    ensures CHECKS <= key && key[|CHECKS|..] == provider
  {
    CHECKS + provider
  }
}
