/** The LDAP configuration group: its fields and defaults, the check that runs once all
    fields are assigned (an enabled LDAP without the LDAP library is switched off; an
    enabled LDAP missing any connection setting is refused), and the values derived
    from the fields for the authentication layer. */
module LdapSettings {
  import opened Wrappers

  datatype LdapError =
    | MissingSettings     // LDAP is enabled but a required connection setting is unset
    | ConcatenatedNone    // a filter was built from an attribute that is None

  const ModelBackend: string := "django.contrib.auth.backends.ModelBackend"
  const LdapBackend: string := "django_auth_ldap.backend.LDAPBackend"

  /** The search the LDAP library is given: base DN and filter (the scope is always the
      whole subtree). */
  datatype UserSearch = UserSearch(base: Option<string>, filter: string)

  /** Python truthiness of an optional string: neither None nor empty. */
  predicate IsSet(s: Option<string>) {
    s.Some? && s.value != ""
  }

  /** The user search filter: the username attribute matched against the login name,
      and-ed with the configured filter. Both appear verbatim at fixed places. */
  function SearchFilter(usernameAttr: string, userFilter: string): (f: string)
    ensures |f| == |usernameAttr| + |userFilter| + 14
    ensures f[..3] == "(&(" && f[3..3 + |usernameAttr|] == usernameAttr
    ensures f[3 + |usernameAttr|..13 + |usernameAttr|] == "=%(user)s)"
    ensures f[13 + |usernameAttr|..|f| - 1] == userFilter && f[|f| - 1] == ')'
  {
    "(&(" + usernameAttr + "=%(user)s)" + userFilter + ")"
  }

  class LdapConfig {
    var ldapEnabled: bool
    const serverUri: Option<string>
    const bindDn: Option<string>
    const bindPassword: Option<string>
    const userBase: Option<string>
    const userFilter: Option<string>
    const createSuperuser: bool
    const usernameAttr: Option<string>
    const firstnameAttr: Option<string>
    const lastnameAttr: Option<string>
    const emailAttr: Option<string>

    /** A configuration with no overrides: LDAP and superuser creation off, every string
        setting None. */
    constructor Default()
      ensures !ldapEnabled && !createSuperuser
      ensures serverUri.None? && bindDn.None? && bindPassword.None? && userBase.None? && userFilter.None?
      ensures usernameAttr.None? && firstnameAttr.None? && lastnameAttr.None? && emailAttr.None?
    {
      ldapEnabled := false;
      serverUri, bindDn, bindPassword, userBase, userFilter := None, None, None, None, None;
      createSuperuser := false;
      usernameAttr, firstnameAttr, lastnameAttr, emailAttr := None, None, None, None;
    }

    /** A configuration with every field given (the enable flag is read from `LDAP`). */
    constructor (ldapEnabled: bool, serverUri: Option<string>, bindDn: Option<string>,
                 bindPassword: Option<string>, userBase: Option<string>, userFilter: Option<string>,
                 createSuperuser: bool, usernameAttr: Option<string>, firstnameAttr: Option<string>,
                 lastnameAttr: Option<string>, emailAttr: Option<string>)
      ensures this.ldapEnabled == ldapEnabled && this.createSuperuser == createSuperuser
      ensures this.serverUri == serverUri && this.bindDn == bindDn && this.bindPassword == bindPassword
      ensures this.userBase == userBase && this.userFilter == userFilter
      ensures this.usernameAttr == usernameAttr && this.firstnameAttr == firstnameAttr
      ensures this.lastnameAttr == lastnameAttr && this.emailAttr == emailAttr
    {
      this.ldapEnabled := ldapEnabled;
      this.serverUri, this.bindDn, this.bindPassword := serverUri, bindDn, bindPassword;
      this.userBase, this.userFilter := userBase, userFilter;
      this.createSuperuser := createSuperuser;
      this.usernameAttr, this.firstnameAttr := usernameAttr, firstnameAttr;
      this.lastnameAttr, this.emailAttr := lastnameAttr, emailAttr;
    }

    /** The five settings an enabled LDAP needs are all non-empty. */
    predicate ConnectionSettingsSet() {
      IsSet(serverUri) && IsSet(bindDn) && IsSet(bindPassword) && IsSet(userBase) && IsSet(userFilter)
    }

    /** The post-construction check. Without the LDAP library an enabled LDAP is switched
        off and the check passes; an LDAP still enabled afterwards fails unless all five
        connection settings are set. Only the enable flag can change, and only from on to
        off. */
    method ValidateLdapConfig(ldapLibPresent: bool) returns (r: Outcome<LdapError>)
      modifies this`ldapEnabled
      ensures ldapEnabled == (old(ldapEnabled) && ldapLibPresent)
      ensures r.Fail? <==> ldapEnabled && !ConnectionSettingsSet()
      ensures r.Fail? ==> r.error == MissingSettings
    {
      if ldapEnabled && !ldapLibPresent {
        ldapEnabled := false;
      }
      if ldapEnabled {
        if !(IsSet(serverUri) && IsSet(bindDn) && IsSet(bindPassword) && IsSet(userBase) && IsSet(userFilter)) {
          return Fail(MissingSettings);
        }
      }
      return Pass;
    }

    /** Django user field -> LDAP attribute: exactly username, first_name, last_name and
        email, each mapped to its configured attribute. */
    function UserAttrMap(): (m: map<string, Option<string>>)
      ensures m.Keys == {"username", "first_name", "last_name", "email"}
      ensures m["username"] == usernameAttr && m["first_name"] == firstnameAttr
      ensures m["last_name"] == lastnameAttr && m["email"] == emailAttr
    {
      map["username" := usernameAttr, "first_name" := firstnameAttr,
          "last_name" := lastnameAttr, "email" := emailAttr]
    }

    /** The authentication backends, tried in order: Django's own model backend first,
        then the LDAP backend. */
    function AuthenticationBackends(): (r: seq<string>)
      ensures |r| == 2 && r[0] == ModelBackend && r[1] == LdapBackend
    {
      [ModelBackend, LdapBackend]
    }

    /** The user search: None without the LDAP library; otherwise a search under the user
        base with the filter built from the username attribute and the user filter,
        which fails when either of those is None. */
    function AuthLdapUserSearch(ldapLibPresent: bool): (r: Result<Option<UserSearch>, LdapError>)
      ensures !ldapLibPresent ==> r == Ok(None)
      ensures ldapLibPresent && (usernameAttr.None? || userFilter.None?) ==> r == Err(ConcatenatedNone)
      ensures ldapLibPresent && usernameAttr.Some? && userFilter.Some? ==>
        && r.Ok? && r.value.Some? && r.value.value.base == userBase
        && r.value.value.filter == SearchFilter(usernameAttr.value, userFilter.value)
    {
      if !ldapLibPresent then Ok(None)
      else if usernameAttr.None? || userFilter.None? then Err(ConcatenatedNone)
      else Ok(Some(UserSearch(userBase, SearchFilter(usernameAttr.value, userFilter.value))))
    }
  }

  /** Validation is idempotent: validating an already validated configuration again
      changes nothing and reaches the same verdict. */
  method RevalidateIsStable(c: LdapConfig, ldapLibPresent: bool)
    returns (first: Outcome<LdapError>, second: Outcome<LdapError>)
    modifies c
    ensures second == first
    ensures c.ldapEnabled == (old(c.ldapEnabled) && ldapLibPresent)
  {
    first := c.ValidateLdapConfig(ldapLibPresent);
    ghost var enabled := c.ldapEnabled;
    second := c.ValidateLdapConfig(ldapLibPresent);
    assert c.ldapEnabled == enabled;
  }
}
