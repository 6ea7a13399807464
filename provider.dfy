/**
 * Provider resolution: where the connection target, the credentials and the
 * media library come from. An explicit provider object is looked up first;
 * each field still empty is then taken from the credential secret, from the
 * process environment, or from a computed default.
 */
module Provider {
  import opened Common

  /** The resolved connection bundle (the provider spec). */
  datatype ProviderValue = ProviderValue(
    scvmmHost: string,
    execHost: string,
    libraryISOs: string,
    adServer: string,
    secretRef: Option<string>,
    username: string,
    password: string,
    extraFunctions: Option<map<string, string>>)

  /** A freshly allocated provider: every field empty and the function table nil. */
  const EmptyProvider := ProviderValue("", "", "", "", None, "", "", None)

  /** The process environment as getProvider reads it; an unset variable reads as "". */
  datatype Environment = Environment(
    scvmmHost: string,     // SCVMM_HOST
    execHost: string,      // SCVMM_EXECHOST
    library: string,       // SCVMM_LIBRARY
    adServer: string,      // ACTIVEDIRECTORY_SERVER
    username: string,      // SCVMM_USERNAME
    password: string)      // SCVMM_PASSWORD

  /** A provider object as stored: its own namespace and its spec. */
  datatype ProviderObject = ProviderObject(namespace: string, spec: ProviderValue)

  /** The objects the lookups can find; a key that is absent makes the lookup fail. */
  datatype Store = Store(
    providers: map<ObjectRef, ProviderObject>,
    secrets: map<ObjectRef, map<string, string>>)

  /** How the defaulting ended; NilMapWrite is the Go run-time panic of writing into a nil map. */
  datatype DefaultsOutcome = Defaulted | MissingHost | SecretUnavailable | NilMapWrite

  /** The outcome and the provider fields as they stand when defaulting stops. */
  datatype DefaultsResult = DefaultsResult(outcome: DefaultsOutcome, spec: ProviderValue)

  /** The library path used when neither the provider nor the environment names one. */
  function DefaultLibrary(host: string): string
  {
    "\\\\" + host + "\\MSSCVMMLibrary\\ISOs\\clond-init"
  }

  /** A field taken from the secret when the secret has that key, else kept. */
  function FromSecret(data: map<string, string>, key: string, current: string): string
  {
    if key in data then data[key] else current
  }

  /** Management and execution host: the first stage, the only one that can stop the defaulting early. */
  function DefaultHosts(p: ProviderValue, env: Environment): (d: DefaultsResult)
    ensures d.outcome == MissingHost <==> p.scvmmHost == "" && env.scvmmHost == ""
    ensures d.outcome == NilMapWrite <==> d.outcome != MissingHost && p.execHost == "" && p.extraFunctions.None?
    ensures !d.outcome.SecretUnavailable?
    ensures d.outcome == Defaulted ==>
      && d.spec.scvmmHost == (if p.scvmmHost != "" then p.scvmmHost else env.scvmmHost)
      && d.spec.execHost == (if p.execHost != "" then p.execHost else d.spec.scvmmHost)
      && (p.execHost == "" ==> d.spec.extraFunctions == Some(p.extraFunctions.value["ConnectSCVMM" := ""]))
      && (p.execHost != "" ==> d.spec.extraFunctions == p.extraFunctions)
      && d.spec.(scvmmHost := p.scvmmHost, execHost := p.execHost, extraFunctions := p.extraFunctions) == p
  {
    var p1 := if p.scvmmHost == "" then p.(scvmmHost := env.scvmmHost) else p;
    if p1.scvmmHost == "" then DefaultsResult(MissingHost, p1)
    else if p1.execHost != "" then DefaultsResult(Defaulted, p1)
    else if p1.extraFunctions.None? then DefaultsResult(NilMapWrite, p1.(execHost := env.execHost))
    else DefaultsResult(Defaulted, p1.(extraFunctions := Some(p1.extraFunctions.value["ConnectSCVMM" := ""]), execHost := p1.scvmmHost))
  }

  /** Library path and directory server: fill what is empty, never fail. */
  function DefaultPaths(p: ProviderValue, env: Environment): (q: ProviderValue)
    ensures q.libraryISOs == (if p.libraryISOs != "" then p.libraryISOs
                              else if env.library != "" then env.library
                              else DefaultLibrary(p.scvmmHost))
    ensures q.adServer == (if p.adServer != "" then p.adServer else env.adServer)
    ensures q.(libraryISOs := p.libraryISOs, adServer := p.adServer) == p
  {
    var p1 := if p.libraryISOs == "" then
      p.(libraryISOs := if env.library != "" then env.library else DefaultLibrary(p.scvmmHost))
    else p;
    if p1.adServer == "" then p1.(adServer := env.adServer) else p1
  }

  /** Credentials: the secret's keys override, then the environment fills what is still empty. */
  function DefaultCredentials(p: ProviderValue, namespace: string, secrets: map<ObjectRef, map<string, string>>, env: Environment): (d: DefaultsResult)
    ensures d.outcome == SecretUnavailable <==> p.secretRef.Some? && ObjectRef(namespace, p.secretRef.value) !in secrets
    ensures d.outcome != SecretUnavailable ==> d.outcome == Defaulted
    ensures d.outcome == Defaulted && p.secretRef.Some? ==>
      var data := secrets[ObjectRef(namespace, p.secretRef.value)];
      && ("username" in data ==> d.spec.username == (if data["username"] != "" then data["username"] else env.username))
      && ("password" in data ==> d.spec.password == (if data["password"] != "" then data["password"] else env.password))
    ensures d.outcome == Defaulted && (p.secretRef.None? || "username" !in secrets[ObjectRef(namespace, p.secretRef.value)]) ==>
      d.spec.username == (if p.username != "" then p.username else env.username)
    ensures d.outcome == Defaulted && (p.secretRef.None? || "password" !in secrets[ObjectRef(namespace, p.secretRef.value)]) ==>
      d.spec.password == (if p.password != "" then p.password else env.password)
    ensures d.spec.(username := p.username, password := p.password) == p
  {
    if p.secretRef.Some? && ObjectRef(namespace, p.secretRef.value) !in secrets then DefaultsResult(SecretUnavailable, p)
    else
      var p1 := if p.secretRef.Some? then
        var data := secrets[ObjectRef(namespace, p.secretRef.value)];
        p.(username := FromSecret(data, "username", p.username), password := FromSecret(data, "password", p.password))
      else p;
      var p2 := if p1.username == "" then p1.(username := env.username) else p1;
      DefaultsResult(Defaulted, if p2.password == "" then p2.(password := env.password) else p2)
  }

  /**
   * The defaulting of getProvider, in the order the source applies it:
   * management host (fatal when still empty), execution host, library path,
   * directory server, secret credentials, environment credentials. Every
   * field that was set is kept; only empty fields are filled.
   */
  function ApplyDefaults(p: ProviderValue, namespace: string, secrets: map<ObjectRef, map<string, string>>, env: Environment): (d: DefaultsResult)
    ensures d.outcome == MissingHost <==> p.scvmmHost == "" && env.scvmmHost == ""
    ensures d.outcome == NilMapWrite <==>
      (p.scvmmHost != "" || env.scvmmHost != "") && p.execHost == "" && p.extraFunctions.None?
    ensures d.outcome == SecretUnavailable <==>
      (p.scvmmHost != "" || env.scvmmHost != "") && (p.execHost != "" || p.extraFunctions.Some?)
      && p.secretRef.Some? && ObjectRef(namespace, p.secretRef.value) !in secrets
    ensures d.outcome == Defaulted ==>
      && d.spec.scvmmHost != ""
      && d.spec.scvmmHost == (if p.scvmmHost != "" then p.scvmmHost else env.scvmmHost)
      && d.spec.execHost == (if p.execHost != "" then p.execHost else d.spec.scvmmHost)
      && (p.execHost == "" ==> d.spec.extraFunctions == Some(p.extraFunctions.value["ConnectSCVMM" := ""]))
      && (p.execHost != "" ==> d.spec.extraFunctions == p.extraFunctions)
      && d.spec.libraryISOs == (if p.libraryISOs != "" then p.libraryISOs
                                else if env.library != "" then env.library
                                else DefaultLibrary(d.spec.scvmmHost))
      && d.spec.adServer == (if p.adServer != "" then p.adServer else env.adServer)
      && d.spec.secretRef == p.secretRef
    ensures d.outcome == Defaulted && p.secretRef.Some? ==>
      var data := secrets[ObjectRef(namespace, p.secretRef.value)];
      && ("username" in data ==> d.spec.username == (if data["username"] != "" then data["username"] else env.username))
      && ("password" in data ==> d.spec.password == (if data["password"] != "" then data["password"] else env.password))
    ensures d.outcome == Defaulted && (p.secretRef.None? || "username" !in secrets[ObjectRef(namespace, p.secretRef.value)]) ==>
      d.spec.username == (if p.username != "" then p.username else env.username)
    ensures d.outcome == Defaulted && (p.secretRef.None? || "password" !in secrets[ObjectRef(namespace, p.secretRef.value)]) ==>
      d.spec.password == (if p.password != "" then p.password else env.password)
  {
    var hosts := DefaultHosts(p, env);
    if hosts.outcome != Defaulted then hosts
    else DefaultCredentials(DefaultPaths(hosts.spec, env), namespace, secrets, env)
  }

  /** The provider spec that getProvider fills in field by field. */
  class ProviderSpec {
    var scvmmHost: string
    var execHost: string
    var libraryISOs: string
    var adServer: string
    var secretRef: Option<string>
    var username: string
    var password: string
    var extraFunctions: Option<map<string, string>>

    function Value(): ProviderValue
      reads this
    {
      ProviderValue(scvmmHost, execHost, libraryISOs, adServer, secretRef, username, password, extraFunctions)
    }

    constructor (v: ProviderValue)
      ensures Value() == v
    {
      scvmmHost, execHost, libraryISOs, adServer := v.scvmmHost, v.execHost, v.libraryISOs, v.adServer;
      secretRef, username, password, extraFunctions := v.secretRef, v.username, v.password, v.extraFunctions;
    }

    /** The "Set defaults" block of getProvider, overwriting this spec's fields in place. */
    method SetDefaults(namespace: string, secrets: map<ObjectRef, map<string, string>>, env: Environment)
      returns (outcome: DefaultsOutcome)
      modifies this
      ensures DefaultsResult(outcome, Value()) == ApplyDefaults(old(Value()), namespace, secrets, env)
    {
      outcome := SetHosts(env);
      if outcome != Defaulted {
        return;
      }
      SetPaths(env);
      outcome := SetCredentials(namespace, secrets, env);
    }

    method SetHosts(env: Environment) returns (outcome: DefaultsOutcome)
      modifies this
      ensures DefaultsResult(outcome, Value()) == DefaultHosts(old(Value()), env)
    {
      if scvmmHost == "" {
        scvmmHost := env.scvmmHost;
        if scvmmHost == "" {
          return MissingHost;
        }
      }
      if execHost == "" {
        execHost := env.execHost;
        if extraFunctions.None? {
          return NilMapWrite;
        }
        extraFunctions := Some(extraFunctions.value["ConnectSCVMM" := ""]);
        execHost := scvmmHost;
      }
      outcome := Defaulted;
    }

    method SetPaths(env: Environment)
      modifies this
      ensures Value() == DefaultPaths(old(Value()), env)
    {
      if libraryISOs == "" {
        libraryISOs := env.library;
        if libraryISOs == "" {
          libraryISOs := DefaultLibrary(scvmmHost);
        }
      }
      if adServer == "" {
        adServer := env.adServer;
      }
    }

    method SetCredentials(namespace: string, secrets: map<ObjectRef, map<string, string>>, env: Environment)
      returns (outcome: DefaultsOutcome)
      modifies this
      ensures DefaultsResult(outcome, Value()) == DefaultCredentials(old(Value()), namespace, secrets, env)
    {
      if secretRef.Some? {
        var key := ObjectRef(namespace, secretRef.value);
        if key !in secrets {
          return SecretUnavailable;
        }
        var data := secrets[key];
        if "username" in data {
          username := data["username"];
        }
        if "password" in data {
          password := data["password"];
        }
      }
      if username == "" {
        username := env.username;
      }
      if password == "" {
        password := env.password;
      }
      outcome := Defaulted;
    }
  }

  /** The scvmmCluster object as getProvider would read it: its namespace and provider reference. */
  datatype ClusterInfo = ClusterInfo(namespace: string, providerRef: Option<ObjectRef>)

  /** Result of getProvider; Crash is a Go run-time panic (nil dereference or nil map write). */
  datatype Resolution = Resolved(provider: ProviderValue) | ResolveError(message: string) | Crash

  function FromDefaults(d: DefaultsResult): (r: Resolution)
    ensures r.Resolved? <==> d.outcome == Defaulted
    ensures r.Resolved? ==> r.provider == d.spec
    ensures r.Crash? <==> d.outcome == NilMapWrite
  {
    match d.outcome
    case Defaulted => Resolved(d.spec)
    case MissingHost => ResolveError("missing required value ScvmmHost")
    case SecretUnavailable => ResolveError("Failed to get credential secretref")
    case NilMapWrite => Crash
  }

  /**
   * getProvider: the cluster's provider reference when there is a cluster,
   * otherwise the machine's own (from its cloud-init section); the reference
   * is looked up, then defaulted. An empty namespace is filled from the
   * cluster, which dereferences a nil cluster when there is none.
   */
  function Resolve(cluster: Option<ClusterInfo>, machineRef: Option<ObjectRef>, store: Store, env: Environment): (r: Resolution)
    ensures r.Resolved? ==> r.provider.scvmmHost != "" && r.provider.execHost != "" && r.provider.libraryISOs != ""
    ensures cluster.None? && machineRef.None? ==> (if env.scvmmHost == "" then r.ResolveError? else r.Crash?)
    ensures cluster.None? && machineRef.Some? && machineRef.value.namespace == "" ==> r.Crash?
    ensures cluster.None? && machineRef.Some? && machineRef.value !in store.providers ==> r.ResolveError? || r.Crash?
  {
    var ref := if cluster.None? then machineRef else cluster.value.providerRef;
    if ref.None? then FromDefaults(ApplyDefaults(EmptyProvider, "", store.secrets, env))
    else if ref.value.namespace == "" && cluster.None? then Crash
    else
      var key := ObjectRef(if ref.value.namespace == "" then cluster.value.namespace else ref.value.namespace, ref.value.name);
      if key !in store.providers then ResolveError("Failed to get ScvmmProvider")
      else FromDefaults(ApplyDefaults(store.providers[key].spec, store.providers[key].namespace, store.secrets, env))
  }

  /**
   * Without a reference (no cluster and no cloud-init reference, or a
   * cluster whose spec names none) the freshly allocated provider is
   * defaulted, with its secret looked up in the empty namespace.
   */
  lemma ResolveWithoutReference(cluster: Option<ClusterInfo>, machineRef: Option<ObjectRef>, store: Store, env: Environment)
    requires if cluster.None? then machineRef.None? else cluster.value.providerRef.None?
    ensures Resolve(cluster, machineRef, store, env) == FromDefaults(ApplyDefaults(EmptyProvider, "", store.secrets, env))
    ensures Resolve(cluster, machineRef, store, env).ResolveError? <==> env.scvmmHost == ""
    ensures Resolve(cluster, machineRef, store, env).Crash? <==> env.scvmmHost != ""
  {
  }

  /**
   * A stand-alone machine uses its own reference: an empty namespace
   * dereferences the missing cluster, an absent key is an error, and a
   * stored provider resolves to its own spec defaulted in its namespace.
   */
  lemma ResolveMachineReference(ref: ObjectRef, store: Store, env: Environment)
    ensures var r := Resolve(None, Some(ref), store, env);
      && (ref.namespace == "" ==> r.Crash?)
      && (ref.namespace != "" && ref !in store.providers ==> r.ResolveError?)
      && (ref.namespace != "" && ref in store.providers ==>
            r == FromDefaults(ApplyDefaults(store.providers[ref].spec, store.providers[ref].namespace, store.secrets, env)))
  {
  }

  /**
   * A machine with a cluster uses the cluster's reference and never its
   * own; an empty namespace is taken from the cluster, an absent key is an
   * error, and a stored provider resolves to its own spec defaulted.
   */
  lemma ResolveClusterReference(c: ClusterInfo, machineRef: Option<ObjectRef>, store: Store, env: Environment)
    requires c.providerRef.Some?
    ensures Resolve(Some(c), machineRef, store, env) == Resolve(Some(c), None, store, env)
    ensures var ref := c.providerRef.value;
      var key := ObjectRef(if ref.namespace == "" then c.namespace else ref.namespace, ref.name);
      var r := Resolve(Some(c), machineRef, store, env);
      && (key !in store.providers ==> r.ResolveError?)
      && (key in store.providers ==>
            r == FromDefaults(ApplyDefaults(store.providers[key].spec, store.providers[key].namespace, store.secrets, env)))
  {
  }

  /** getProvider as a procedure: fetch (or allocate) the provider, then default its spec in place. */
  method GetProvider(cluster: Option<ClusterInfo>, machineRef: Option<ObjectRef>, store: Store, env: Environment)
    returns (r: Resolution)
    ensures r == Resolve(cluster, machineRef, store, env)
  {
    var ref := if cluster.None? then machineRef else cluster.value.providerRef;
    var fetched := ProviderObject("", EmptyProvider);
    if ref.Some? {
      if ref.value.namespace == "" && cluster.None? {
        return Crash;
      }
      var key := ObjectRef(if ref.value.namespace == "" then cluster.value.namespace else ref.value.namespace, ref.value.name);
      if key !in store.providers {
        return ResolveError("Failed to get ScvmmProvider");
      }
      fetched := store.providers[key];
    }
    var p := new ProviderSpec(fetched.spec);
    var outcome := p.SetDefaults(fetched.namespace, store.secrets, env);
    r := FromDefaults(DefaultsResult(outcome, p.Value()));
  }
}
