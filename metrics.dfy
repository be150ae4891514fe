/**
 * The certificate-expiry metric registry (pkg/metrics/metrics.go).
 *
 * The package keeps process-wide state: the set of registered `namespace/name` keys,
 * the expiry gauge vector labelled by (name, namespace), the sync-call counter vector
 * labelled by controller, and the package-level certificate lister. The `Metrics` struct
 * adds its own lister field. The class below holds all of it in one object, single-threaded
 * (the mutex is left out). Gauge values are whole Unix seconds rather than float64.
 */
module Metrics {
  import opened Outcomes
  import opened GoTime
  import opened Api
  import opened Pki
  import opened Strings

  // ---------------------------------------------------------------------------
  // The client-go cache key helpers the registry uses.

  /** MetaNamespaceKeyFunc: `namespace/name`, or just `name` for an object without a namespace. */
  function MetaNamespaceKey(namespace: string, name: string): (key: string)
    ensures |namespace| > 0 ==> |key| == |namespace| + 1 + |name| && key[..|namespace|] == namespace && key[|namespace|] == '/' && key[|namespace| + 1..] == name
    ensures |namespace| == 0 ==> key == name
  {
    if |namespace| > 0 then namespace + "/" + name else name
  }

  /** The key of a Certificate (DeletionHandlingMetaNamespaceKeyFunc; for a Certificate it cannot fail). */
  function CertificateKey(crt: Certificate): (key: string)
    ensures key == MetaNamespaceKey(crt.namespace, crt.name)
  {
    MetaNamespaceKey(crt.namespace, crt.name)
  }

  predicate HasTwoSlashes(key: string) {
    exists i, j :: 0 <= i < j < |key| && key[i] == '/' && key[j] == '/'
  }

  /**
   * SplitMetaNamespaceKey: `strings.Split(key, "/")` must give one part (no namespace)
   * or two (namespace and name); a key with two or more slashes is an error.
   */
  function SplitMetaNamespaceKey(key: string): (r: Result<(string, string), string>)
    ensures r.Err? <==> HasTwoSlashes(key)
    ensures r.Ok? ==> '/' !in r.value.0 && '/' !in r.value.1
    ensures r.Ok? && '/' !in key ==> r.value == ("", key)
    ensures r.Ok? && '/' in key ==> key == r.value.0 + "/" + r.value.1
  {
    match IndexOf(key, '/')
    case None =>
      Ok(("", key))
    case Some(i) =>
      assert key == key[..i] + "/" + key[i + 1..];
      if '/' in key[i + 1..] then
        var j :| 0 <= j < |key[i + 1..]| && key[i + 1..][j] == '/';
        assert key[i + 1 + j] == '/';
        Err("unexpected key format: " + key)
      else
        assert forall a :: 0 <= a < |key| && key[a] == '/' ==> a == i;
        Ok((key[..i], key[i + 1..]))
  }

  /** Splitting a key made from slash-free names gives those names back. */
  lemma {:induction false} SplitMetaNamespaceKeyInvertsKey(namespace: string, name: string)
    requires '/' !in namespace && '/' !in name
    ensures SplitMetaNamespaceKey(MetaNamespaceKey(namespace, name)) == Ok((namespace, name))
  {
    if |namespace| > 0 {
      var key := MetaNamespaceKey(namespace, name);
      IndexOfAfterPrefix(namespace, '/', name);
      assert key[..|namespace|] == namespace;
      assert key[|namespace| + 1..] == name;
    }
  }

  /** A key that is exactly what MetaNamespaceKey makes of its own split. */
  predicate Canonical(key: string) {
    SplitMetaNamespaceKey(key).Ok? &&
    MetaNamespaceKey(SplitMetaNamespaceKey(key).value.0, SplitMetaNamespaceKey(key).value.1) == key
  }

  /** The gauge labels a key is cleaned up under: (name, namespace) as split from the key. */
  function KeyLabels(key: string): GaugeLabels
    requires SplitMetaNamespaceKey(key).Ok?
  {
    GaugeLabels(SplitMetaNamespaceKey(key).value.1, SplitMetaNamespaceKey(key).value.0)
  }

  /** The key of a Certificate with slash-free names is canonical and splits into its own labels. */
  lemma CertificateKeyIsCanonical(crt: Certificate)
    requires '/' !in crt.namespace && '/' !in crt.name
    ensures Canonical(CertificateKey(crt))
    ensures KeyLabels(CertificateKey(crt)) == GaugeLabels(crt.name, crt.namespace)
  {
    SplitMetaNamespaceKeyInvertsKey(crt.namespace, crt.name);
  }

  // ---------------------------------------------------------------------------
  // The registry as a value, and what each operation does to it.

  datatype GaugeLabels = GaugeLabels(name: string, namespace: string)

  /** `registeredCertificates.certificates` and the expiry gauge vector. */
  datatype Registry = Registry(registered: set<string>, expiry: map<GaugeLabels, int>)

  /** A certificate lister whose `List` gives the active certificates or an error. */
  datatype CertificateLister = CertificateLister(list: Result<seq<Certificate>, string>)

  /** The keys the first loop of cleanUpCertificates puts in `activeMap`. */
  function ActiveKeys(crts: seq<Certificate>): set<string> {
    set i | 0 <= i < |crts| :: CertificateKey(crts[i])
  }

  /** Registered keys that are not active and split cleanly: the ones cleanUpCertificates deletes. */
  function StaleKeys(registered: set<string>, active: set<string>): set<string> {
    set k | k in registered && k !in active && SplitMetaNamespaceKey(k).Ok?
  }

  function LabelsOfKeys(keys: set<string>): set<GaugeLabels> {
    set k | k in keys && SplitMetaNamespaceKey(k).Ok? :: KeyLabels(k)
  }

  /** updateX509Expiry: register the key and set the gauge to NotAfter in Unix seconds. */
  function ExpiryUpdated(s: Registry, crt: Certificate, cert: X509Certificate): Registry {
    Registry(s.registered + {CertificateKey(crt)},
             s.expiry[GaugeLabels(crt.name, crt.namespace) := UnixSeconds(cert.notAfter)])
  }

  /** cleanUpCertificates: forget every stale key and delete its gauge. */
  function CleanedUp(s: Registry, active: set<string>): Registry {
    Removed(s, StaleKeys(s.registered, active))
  }

  /** Every registered key is canonical and has its gauge: what the registry looks like for well-named certificates. */
  predicate Consistent(s: Registry) {
    forall k :: k in s.registered ==> Canonical(k) && KeyLabels(k) in s.expiry
  }

  /** Cleaning up twice against the same active list is the same as once. */
  lemma CleanUpIsIdempotent(s: Registry, active: set<string>)
    ensures CleanedUp(CleanedUp(s, active), active) == CleanedUp(s, active)
  {
    var once := CleanedUp(s, active);
    assert StaleKeys(once.registered, active) == {};
    assert LabelsOfKeys({}) == {};
    assert once.expiry - {} == once.expiry;
  }

  /** When every registered key splits, cleanup keeps exactly the registered keys that are active. */
  lemma CleanUpKeepsExactlyActiveKeys(s: Registry, active: set<string>)
    requires forall k :: k in s.registered ==> SplitMetaNamespaceKey(k).Ok?
    ensures CleanedUp(s, active).registered == s.registered * active
  {
  }

  /** In a consistent registry, the gauge of a key that is still active survives cleanup with its value. */
  lemma CleanUpKeepsGaugesOfActiveKeys(s: Registry, active: set<string>, k: string)
    requires Consistent(s)
    requires k in s.registered && k in active
    ensures KeyLabels(k) in CleanedUp(s, active).expiry
    ensures CleanedUp(s, active).expiry[KeyLabels(k)] == s.expiry[KeyLabels(k)]
  {
    var stale := StaleKeys(s.registered, active);
    forall k' | k' in stale && SplitMetaNamespaceKey(k').Ok? ensures KeyLabels(k') != KeyLabels(k) {
      assert Canonical(k') && k' != k;
    }
  }

  /**
   * Every key cleanup removes is also gone from the gauges, and every gauge it deletes
   * belongs to a key it removed.
   */
  lemma CleanUpDeletesGaugesOfRemovedKeys(s: Registry, active: set<string>)
    ensures forall k :: k in s.registered && k !in active && SplitMetaNamespaceKey(k).Ok? ==>
      k !in CleanedUp(s, active).registered && KeyLabels(k) !in CleanedUp(s, active).expiry
    ensures forall l :: l in s.expiry && l !in CleanedUp(s, active).expiry ==>
      exists k :: k in s.registered && k !in CleanedUp(s, active).registered && SplitMetaNamespaceKey(k).Ok? && KeyLabels(k) == l
  {
  }

  /** Cleanup keeps a registry consistent. */
  lemma CleanUpPreservesConsistency(s: Registry, active: set<string>)
    requires Consistent(s)
    ensures Consistent(CleanedUp(s, active))
  {
    var after := CleanedUp(s, active);
    forall k | k in after.registered ensures Canonical(k) && KeyLabels(k) in after.expiry {
      CleanUpKeepsGaugesOfActiveKeys(s, active, k);
    }
  }

  /** Recording a certificate with slash-free names keeps a registry consistent. */
  lemma ExpiryUpdatePreservesConsistency(s: Registry, crt: Certificate, cert: X509Certificate)
    requires Consistent(s)
    requires '/' !in crt.namespace && '/' !in crt.name
    ensures Consistent(ExpiryUpdated(s, crt, cert))
  {
    CertificateKeyIsCanonical(crt);
  }

  /** The keys of a sequence that split cleanly. */
  function SplittableKeys(keys: seq<string>): set<string> {
    set k | k in keys && SplitMetaNamespaceKey(k).Ok?
  }

  lemma SplittableKeysOfLonger(keys: seq<string>, key: string)
    ensures SplittableKeys(keys + [key]) ==
      SplittableKeys(keys) + (if SplitMetaNamespaceKey(key).Ok? then {key} else {})
  {
  }

  lemma LabelsOfOneMoreKey(keys: set<string>, key: string)
    requires SplitMetaNamespaceKey(key).Ok?
    ensures LabelsOfKeys(keys + {key}) == LabelsOfKeys(keys) + {KeyLabels(key)}
  {
  }

  /** The registry with the given keys forgotten and their gauges deleted. */
  function Removed(s: Registry, keys: set<string>): Registry {
    Registry(s.registered - keys, s.expiry - LabelsOfKeys(keys))
  }

  /** One more iteration of cleanUpCertificates' last loop: a key that splits is forgotten with its gauge, any other is skipped. */
  lemma RemovedOneMore(s: Registry, keys: seq<string>, key: string)
    ensures SplitMetaNamespaceKey(key).Ok? ==>
      var r := Removed(s, SplittableKeys(keys));
      Removed(s, SplittableKeys(keys + [key])) == Registry(r.registered - {key}, r.expiry - {KeyLabels(key)})
    ensures !SplitMetaNamespaceKey(key).Ok? ==>
      Removed(s, SplittableKeys(keys + [key])) == Removed(s, SplittableKeys(keys))
  {
    SplittableKeysOfLonger(keys, key);
    if SplitMetaNamespaceKey(key).Ok? {
      LabelsOfOneMoreKey(SplittableKeys(keys), key);
    }
  }

  /** The keys the last loop removes are exactly the stale ones. */
  lemma SplittableKeysAreStale(registered: set<string>, active: set<string>, toCleanUp: seq<string>)
    requires forall k :: k in toCleanUp <==> k in registered && k !in active
    ensures SplittableKeys(toCleanUp) == StaleKeys(registered, active)
  {
  }

  function SyncCount(counts: map<string, nat>, controllerName: string): nat {
    if controllerName in counts then counts[controllerName] else 0
  }

  // ---------------------------------------------------------------------------
  // The loops of cleanUpCertificates.

  /** The first loop: the key of every active certificate. */
  method CollectActiveKeys(activeCrts: seq<Certificate>) returns (activeMap: set<string>)
    ensures activeMap == ActiveKeys(activeCrts)
  {
    activeMap := {};
    for i := 0 to |activeCrts|
      invariant activeMap == set j | 0 <= j < i :: CertificateKey(activeCrts[j])
    {
      activeMap := activeMap + {CertificateKey(activeCrts[i])};
    }
  }

  /** The second loop: every registered key missing from the active set, each once, in map order. */
  method CollectKeysToCleanUp(registered: set<string>, activeMap: set<string>) returns (toCleanUp: seq<string>)
    ensures forall k :: k in toCleanUp <==> k in registered && k !in activeMap
    ensures forall a, b :: 0 <= a < b < |toCleanUp| ==> toCleanUp[a] != toCleanUp[b]
  {
    toCleanUp := [];
    var remaining := registered;
    while remaining != {}
      invariant remaining <= registered
      invariant forall k :: k in toCleanUp <==> k in registered - remaining && k !in activeMap
      invariant forall a, b :: 0 <= a < b < |toCleanUp| ==> toCleanUp[a] != toCleanUp[b]
      decreases remaining
    {
      var key :| key in remaining;
      if key !in activeMap {
        toCleanUp := toCleanUp + [key];
      }
      remaining := remaining - {key};
    }
  }

  class Metrics {
    /** `registeredCertificates.certificates` (package level). */
    var registered: set<string>
    /** CertificateExpiryTimeSeconds, by (name, namespace) (package level). */
    var expiry: map<GaugeLabels, int>
    /** ControllerSyncCallCount, by controller name (package level). */
    var syncCalls: map<string, nat>
    /** The struct field `m.activeCertificates`. */
    var activeCertificates: Option<CertificateLister>
    /** The package-level `activeCertificates`; nothing in the package assigns it. */
    var packageActiveCertificates: Option<CertificateLister>

    function State(): Registry
      reads this
    {
      Registry(registered, expiry)
    }

    /** New, together with the package's initial state. */
    constructor ()
      ensures registered == {} && expiry == map[] && syncCalls == map[]
      ensures activeCertificates == None && packageActiveCertificates == None
    {
      registered, expiry, syncCalls := {}, map[], map[];
      activeCertificates, packageActiveCertificates := None, None;
    }

    /** updateX509Expiry: set the gauge for (name, namespace) and register the key; nothing else changes. */
    method UpdateX509Expiry(crt: Certificate, cert: X509Certificate)
      modifies this
      ensures State() == ExpiryUpdated(old(State()), crt, cert)
      ensures CertificateKey(crt) in registered
      ensures expiry[GaugeLabels(crt.name, crt.namespace)] == UnixSeconds(cert.notAfter)
      ensures syncCalls == old(syncCalls)
      ensures activeCertificates == old(activeCertificates)
      ensures packageActiveCertificates == old(packageActiveCertificates)
    {
      var expiryTime := cert.notAfter;
      var key := CertificateKey(crt);
      expiry := expiry[GaugeLabels(crt.name, crt.namespace) := UnixSeconds(expiryTime)];
      registered := registered + {key};
    }

    /** SetActiveCertificates: writes the struct field only; `None` is a nil lister. */
    method SetActiveCertificates(cl: Option<CertificateLister>)
      modifies this
      ensures activeCertificates == cl
      ensures packageActiveCertificates == old(packageActiveCertificates)
      ensures State() == old(State()) && syncCalls == old(syncCalls)
    {
      activeCertificates := cl;
    }

    /** cleanUpCertificates: drop every stale key from the registry together with its gauge. */
    method CleanUpCertificates(activeCrts: seq<Certificate>)
      modifies this
      ensures State() == CleanedUp(old(State()), ActiveKeys(activeCrts))
      ensures syncCalls == old(syncCalls)
      ensures activeCertificates == old(activeCertificates)
      ensures packageActiveCertificates == old(packageActiveCertificates)
    {
      var activeMap := CollectActiveKeys(activeCrts);
      var toCleanUp := CollectKeysToCleanUp(registered, activeMap);
      ghost var before := State();
      SplittableKeysAreStale(before.registered, activeMap, toCleanUp);
      var i := 0;
      while i < |toCleanUp|
        invariant 0 <= i <= |toCleanUp|
        invariant State() == Removed(before, SplittableKeys(toCleanUp[..i]))
        invariant syncCalls == old(syncCalls)
        invariant activeCertificates == old(activeCertificates)
        invariant packageActiveCertificates == old(packageActiveCertificates)
      {
        var key := toCleanUp[i];
        RemovedOneMore(before, toCleanUp[..i], key);
        assert toCleanUp[..i + 1] == toCleanUp[..i] + [key];
        var split := SplitMetaNamespaceKey(key);
        if split.Ok? {
          var (namespace, name) := split.value;
          expiry := expiry - {GaugeLabels(name, namespace)};
          registered := registered - {key};
        }
        i := i + 1;
      }
      assert toCleanUp[..i] == toCleanUp;
    }

    /**
     * cleanUp as written: it consults the package-level lister, not the struct field
     * that SetActiveCertificates writes. With no lister, or when listing fails, nothing changes.
     */
    method CleanUp()
      modifies this
      ensures old(packageActiveCertificates).None? ==> State() == old(State())
      ensures old(packageActiveCertificates).Some? && old(packageActiveCertificates).value.list.Err? ==>
        State() == old(State())
      ensures old(packageActiveCertificates).Some? && old(packageActiveCertificates).value.list.Ok? ==>
        State() == CleanedUp(old(State()), ActiveKeys(old(packageActiveCertificates).value.list.value))
      ensures syncCalls == old(syncCalls)
      ensures activeCertificates == old(activeCertificates)
      ensures packageActiveCertificates == old(packageActiveCertificates)
    {
      match packageActiveCertificates
      case None =>
        return;
      case Some(lister) =>
        match lister.list
        case Err(_) =>
          return;
        case Ok(activeCrts) =>
          CleanUpCertificates(activeCrts);
    }

    /** cleanUp as evidently intended: consult the lister that SetActiveCertificates installed. */
    method CleanUpActiveCertificates()
      modifies this
      ensures old(activeCertificates).None? ==> State() == old(State())
      ensures old(activeCertificates).Some? && old(activeCertificates).value.list.Err? ==>
        State() == old(State())
      ensures old(activeCertificates).Some? && old(activeCertificates).value.list.Ok? ==>
        State() == CleanedUp(old(State()), ActiveKeys(old(activeCertificates).value.list.value))
      ensures syncCalls == old(syncCalls)
      ensures activeCertificates == old(activeCertificates)
      ensures packageActiveCertificates == old(packageActiveCertificates)
    {
      match activeCertificates
      case None =>
        return;
      case Some(lister) =>
        match lister.list
        case Err(_) =>
          return;
        case Ok(activeCrts) =>
          CleanUpCertificates(activeCrts);
    }

    /** IncrementSyncCallCount: the named controller's counter goes up by one; no other counter changes. */
    method IncrementSyncCallCount(controllerName: string)
      modifies this
      ensures SyncCount(syncCalls, controllerName) == SyncCount(old(syncCalls), controllerName) + 1
      ensures forall c :: c != controllerName ==> SyncCount(syncCalls, c) == SyncCount(old(syncCalls), c)
      ensures syncCalls.Keys == old(syncCalls).Keys + {controllerName}
      ensures State() == old(State())
      ensures activeCertificates == old(activeCertificates)
      ensures packageActiveCertificates == old(packageActiveCertificates)
    {
      syncCalls := syncCalls[controllerName := SyncCount(syncCalls, controllerName) + 1];
    }
  }

  /**
   * The metrics of a deleted certificate are never cleaned up: after SetActiveCertificates
   * installs a lister that lists nothing, cleanUp still leaves the key and its gauge.
   */
  method CleanUpKeepsDeletedCertificate(crt: Certificate, cert: X509Certificate)
    returns (stillRegistered: bool, gaugeStillExported: bool)
    ensures stillRegistered && gaugeStillExported
  {
    var m := new Metrics();
    m.UpdateX509Expiry(crt, cert);
    m.SetActiveCertificates(Some(CertificateLister(Ok([]))));
    m.CleanUp();
    stillRegistered := CertificateKey(crt) in m.registered;
    gaugeStillExported := GaugeLabels(crt.name, crt.namespace) in m.expiry;
  }

  /** With the intended lister, the same sequence removes the deleted certificate's key and gauge. */
  method CorrectedCleanUpForgetsDeletedCertificate(crt: Certificate, cert: X509Certificate)
    returns (stillRegistered: bool, gaugeStillExported: bool)
    requires '/' !in crt.namespace && '/' !in crt.name
    ensures !stillRegistered && !gaugeStillExported
  {
    var m := new Metrics();
    m.UpdateX509Expiry(crt, cert);
    m.SetActiveCertificates(Some(CertificateLister(Ok([]))));
    m.CleanUpActiveCertificates();
    CertificateKeyIsCanonical(crt);
    stillRegistered := CertificateKey(crt) in m.registered;
    gaugeStillExported := GaugeLabels(crt.name, crt.namespace) in m.expiry;
  }
}
