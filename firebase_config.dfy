/**
  The client database configuration: the seven settings read from the
  environment (`NEXT_PUBLIC_FIREBASE_*` in the browser, `FIREBASE_*`
  elsewhere), the three settings required before initialisation, and the
  guarded one-time initialisation that leaves `db` undefined on any
  problem.
 */
module FirebaseConfig {
  import opened JsValues
  import DocumentStore

  /** Where the code runs and its `process.env`. */
  datatype Env = Env(isBrowser: bool, vars: map<string, string>)

  /** `process.env[name]`: `undefined` when the variable is not set. */
  function EnvVar(env: Env, name: string): (v: Option<string>)
    ensures v.Some? <==> name in env.vars
    ensures v.Some? ==> v.value == env.vars[name]
  {
    if name in env.vars then Some(env.vars[name]) else None
  }

  /** `FirebaseConfig`: every setting may be `undefined`. */
  datatype Config = Config(
    apiKey: Option<string>,
    authDomain: Option<string>,
    projectId: Option<string>,
    storageBucket: Option<string>,
    messagingSenderId: Option<string>,
    appId: Option<string>,
    measurementId: Option<string>)

  /** The keys of `FirebaseConfig`, in declaration order. */
  datatype ConfigKey = ApiKey | AuthDomain | ProjectId | StorageBucket | MessagingSenderId | AppId | MeasurementId

  function Rank(k: ConfigKey): nat
  {
    match k
    case ApiKey => 0
    case AuthDomain => 1
    case ProjectId => 2
    case StorageBucket => 3
    case MessagingSenderId => 4
    case AppId => 5
    case MeasurementId => 6
  }

  /** `firebaseConfig[key]` */
  function Setting(c: Config, k: ConfigKey): Option<string>
  {
    match k
    case ApiKey => c.apiKey
    case AuthDomain => c.authDomain
    case ProjectId => c.projectId
    case StorageBucket => c.storageBucket
    case MessagingSenderId => c.messagingSenderId
    case AppId => c.appId
    case MeasurementId => c.measurementId
  }

  /** The prefix shared by the variable names read in each environment. */
  function VarPrefix(isBrowser: bool): string
  {
    if isBrowser then "NEXT_PUBLIC_FIREBASE_" else "FIREBASE_"
  }

  /** The part of a variable name after the prefix. */
  function VarSuffix(k: ConfigKey): string
  {
    match k
    case ApiKey => "API_KEY"
    case AuthDomain => "AUTH_DOMAIN"
    case ProjectId => "PROJECT_ID"
    case StorageBucket => "STORAGE_BUCKET"
    case MessagingSenderId => "MESSAGING_SENDER_ID"
    case AppId => "APP_ID"
    case MeasurementId => "MEASUREMENT_ID"
  }

  /** The environment variable a setting is read from, e.g. `NEXT_PUBLIC_FIREBASE_API_KEY`. */
  function VarName(isBrowser: bool, k: ConfigKey): string
  {
    VarPrefix(isBrowser) + VarSuffix(k)
  }

  /** `getFirebaseConfig`: each setting from its variable under the environment's prefix. */
  function GetFirebaseConfig(env: Env): (c: Config)
    ensures forall k :: Setting(c, k) == EnvVar(env, VarPrefix(env.isBrowser) + VarSuffix(k))
  {
    var b := env.isBrowser;
    Config(
      EnvVar(env, VarName(b, ApiKey)),
      EnvVar(env, VarName(b, AuthDomain)),
      EnvVar(env, VarName(b, ProjectId)),
      EnvVar(env, VarName(b, StorageBucket)),
      EnvVar(env, VarName(b, MessagingSenderId)),
      EnvVar(env, VarName(b, AppId)),
      EnvVar(env, VarName(b, MeasurementId)))
  }

  /** Two configurations with the same value for every key are the same. */
  lemma SettingsDetermineConfig(c: Config, d: Config)
    requires forall k :: Setting(c, k) == Setting(d, k)
    ensures c == d
  {
    assert Setting(c, ApiKey) == Setting(d, ApiKey) && Setting(c, AuthDomain) == Setting(d, AuthDomain);
    assert Setting(c, ProjectId) == Setting(d, ProjectId) && Setting(c, StorageBucket) == Setting(d, StorageBucket);
    assert Setting(c, MessagingSenderId) == Setting(d, MessagingSenderId) && Setting(c, AppId) == Setting(d, AppId);
    assert Setting(c, MeasurementId) == Setting(d, MeasurementId);
  }

  /** A variable outside the environment's prefix never affects the configuration. */
  lemma ConfigIgnoresOtherVars(env: Env, name: string, value: string)
    requires !(VarPrefix(env.isBrowser) <= name)
    ensures GetFirebaseConfig(env.(vars := env.vars[name := value])) == GetFirebaseConfig(env)
  {
    var env' := env.(vars := env.vars[name := value]);
    var p := VarPrefix(env.isBrowser);
    forall k ensures Setting(GetFirebaseConfig(env'), k) == Setting(GetFirebaseConfig(env), k) {
      assert p <= p + VarSuffix(k);
      assert name != p + VarSuffix(k);
    }
    SettingsDetermineConfig(GetFirebaseConfig(env'), GetFirebaseConfig(env));
  }

  /** Keys listed in declaration order, each at most once. */
  predicate InKeyOrder(keys: seq<ConfigKey>)
  {
    forall i, j :: 0 <= i < j < |keys| ==> Rank(keys[i]) < Rank(keys[j])
  }

  /** `requiredConfigKeys` */
  const RequiredConfigKeys: seq<ConfigKey> := [ApiKey, AuthDomain, ProjectId]

  /** `keys.filter(key => !firebaseConfig[key])`: the keys whose setting is falsy, in their order. */
  function MissingKeys(c: Config, keys: seq<ConfigKey>): (missing: seq<ConfigKey>)
    requires InKeyOrder(keys)
    ensures forall k :: k in missing <==> k in keys && !Truthy(Setting(c, k))
    ensures InKeyOrder(missing)
    ensures |missing| <= |keys|
  {
    if keys == [] then []
    else
      var rest := MissingKeys(c, keys[1..]);
      assert forall k :: k in rest ==> Rank(keys[0]) < Rank(k) by {
        forall k | k in rest ensures Rank(keys[0]) < Rank(k) {
          var j :| 1 <= j < |keys| && keys[j] == k;
        }
      }
      if !Truthy(Setting(c, keys[0])) then [keys[0]] + rest else rest
  }

  /** Nothing is missing exactly when the API key, auth domain and project id are all truthy. */
  lemma NothingMissingIff(c: Config)
    ensures MissingKeys(c, RequiredConfigKeys) == [] <==>
      Truthy(c.apiKey) && Truthy(c.authDomain) && Truthy(c.projectId)
  {
    var m := MissingKeys(c, RequiredConfigKeys);
    if !Truthy(c.apiKey) {
      assert ApiKey in m;
    } else if !Truthy(c.authDomain) {
      assert AuthDomain in m;
    } else if !Truthy(c.projectId) {
      assert ProjectId in m;
    } else {
      var first := if m == [] then ApiKey else m[0];
      assert m != [] ==> first in m;
    }
  }

  /** The storage bucket, sender id, app id and measurement id are never required. */
  lemma OptionalSettingsNeverMissing(c: Config, k: ConfigKey)
    requires k == StorageBucket || k == MessagingSenderId || k == AppId || k == MeasurementId
    ensures k !in MissingKeys(c, RequiredConfigKeys)
  {
  }

  /**
    The module-level initialisation. `store` is the database that
    `getFirestore` would connect to, and `initThrows` says whether
    `initializeApp` or `getFirestore` throws; the result is the exported
    `db`, `null` standing for `undefined`.
   */
  method Initialize(env: Env, store: DocumentStore.Database, initThrows: bool) returns (db: DocumentStore.Database?)
    ensures db != null <==> MissingKeys(GetFirebaseConfig(env), RequiredConfigKeys) == [] && !initThrows
    ensures db != null ==> db == store
  {
    var firebaseConfig := GetFirebaseConfig(env);
    var missingKeys := MissingKeys(firebaseConfig, RequiredConfigKeys);
    if |missingKeys| > 0 {
      db := null;
    } else if initThrows {
      db := null;
    } else {
      db := store;
    }
  }
}
