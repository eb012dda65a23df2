/**
  `isFirebaseAvailable`: the browser-side check that the database settings
  are real, used by the newsletter service before it tries an insert. It
  checks fewer settings than the initialisation does, and one setting
  value the initialisation accepts.
 */
module FirebaseFallback {
  import opened JsValues
  import opened FirebaseConfig

  /** The placeholder API key of static builds. */
  const DummyApiKey := "dummy-api-key-for-github-pages"

  /**
    `isFirebaseAvailable`: in a browser, with a truthy API key other than
    the placeholder and a truthy project id. Reading the environment cannot
    throw here, so the `catch` branch is not modelled.
   */
  function IsFirebaseAvailable(env: Env): (available: bool)
    ensures !env.isBrowser ==> !available
    ensures available <==>
      var c := GetFirebaseConfig(env);
      env.isBrowser && Truthy(c.apiKey) && c.apiKey.value != DummyApiKey && Truthy(c.projectId)
  {
    if !env.isBrowser then false
    else
      var apiKey := EnvVar(env, VarName(true, ApiKey));
      if !Truthy(apiKey) || apiKey.value == DummyApiKey then false
      else
        var projectId := EnvVar(env, VarName(true, ProjectId));
        if !Truthy(projectId) then false
        else true
  }

  /** When the check passes, neither the API key nor the project id is among the missing settings. */
  lemma AvailableImpliesKeysPresent(env: Env)
    requires IsFirebaseAvailable(env)
    ensures ApiKey !in MissingKeys(GetFirebaseConfig(env), RequiredConfigKeys)
    ensures ProjectId !in MissingKeys(GetFirebaseConfig(env), RequiredConfigKeys)
  {
  }

  /** The check ignores the auth domain: it can pass while `db` stays undefined. */
  lemma AvailableWithoutDatabase()
    ensures var env := Env(true, map[VarName(true, ApiKey) := "key", VarName(true, ProjectId) := "transluga"]);
      IsFirebaseAvailable(env) && AuthDomain in MissingKeys(GetFirebaseConfig(env), RequiredConfigKeys)
  {
    var env := Env(true, map[VarName(true, ApiKey) := "key", VarName(true, ProjectId) := "transluga"]);
    assert VarName(true, AuthDomain) != VarName(true, ApiKey);
    assert VarName(true, AuthDomain) != VarName(true, ProjectId);
    assert Setting(GetFirebaseConfig(env), AuthDomain) == None;
  }

  /** The placeholder key passes the initialisation's check but not this one. */
  lemma DatabaseWithoutAvailability(domain: string, project: string)
    requires domain != "" && project != ""
    ensures var env := Env(true, map[VarName(true, ApiKey) := DummyApiKey,
                                     VarName(true, AuthDomain) := domain,
                                     VarName(true, ProjectId) := project]);
      !IsFirebaseAvailable(env) && MissingKeys(GetFirebaseConfig(env), RequiredConfigKeys) == []
  {
    var env := Env(true, map[VarName(true, ApiKey) := DummyApiKey,
                             VarName(true, AuthDomain) := domain,
                             VarName(true, ProjectId) := project]);
    assert VarName(true, AuthDomain) != VarName(true, ApiKey);
    assert VarName(true, ProjectId) != VarName(true, ApiKey);
    assert VarName(true, ProjectId) != VarName(true, AuthDomain);
    var c := GetFirebaseConfig(env);
    assert Setting(c, ApiKey) == Some(DummyApiKey);
    assert Setting(c, AuthDomain) == Some(domain);
    assert Setting(c, ProjectId) == Some(project);
    NothingMissingIff(c);
  }
}
