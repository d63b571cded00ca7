/**
  Routes as the controller sees them, the annotation resolver
  (`overrideWithAnnotation`) and the managed-route predicate.
 */
module Routes {
  import opened Strings

  /** Annotation keys read by the controller. */
  const PathKey := "route.elisa.fi/path"
  const MethodKey := "route.elisa.fi/method"
  const LbMethodKey := "route.elisa.fi/lbmethod"
  const PgaKey := "route.elisa.fi/poolpga"
  /** Presence of this key opts a route in whatever its hostname. */
  const LbEnabledKey := "route.elisa.fi/lbenabled"
  const MaintenanceKey := "route.elisa.fi/maintenance"

  /** One admitted ingress entry of a route's status. */
  datatype Ingress = Ingress(host: string)

  /** A route: the host of its spec, its admitted ingress entries and its annotations. */
  datatype Route = Route(specHost: string, ingress: seq<Ingress>, annotations: map<string, string>)

  /** The desired state the resolver derives from a route's annotations. */
  datatype Endpoint = Endpoint(path: string, httpMethod: string, lbMethod: string, pga: int, maintenance: bool)

  const Defaults := Endpoint("/", "GET", "", 0, false)

  predicate Recognised(key: string) {
    key in {PathKey, MethodKey, LbMethodKey, PgaKey, MaintenanceKey}
  }

  /**
    `overrideWithAnnotation`: start from the defaults and let each recognised
    annotation overwrite its own field. A pool-PGA value that does not parse
    as an integer is ignored; the maintenance flag only asks whether its key
    is present.
   */
  function Resolve(a: map<string, string>): (e: Endpoint)
    ensures e.path == if PathKey in a then a[PathKey] else Defaults.path
    ensures e.httpMethod == if MethodKey in a then a[MethodKey] else Defaults.httpMethod
    ensures e.lbMethod == if LbMethodKey in a then a[LbMethodKey] else Defaults.lbMethod
    ensures e.maintenance <==> MaintenanceKey in a
    ensures PgaKey !in a ==> e.pga == 0
    ensures PgaKey in a && Atoi(a[PgaKey]).None? ==> e.pga == 0
    ensures PgaKey in a && Atoi(a[PgaKey]).Some? ==> e.pga == Atoi(a[PgaKey]).value
  {
    var e0 := Defaults;
    var e1 := if PathKey in a then e0.(path := a[PathKey]) else e0;
    var e2 := if MethodKey in a then e1.(httpMethod := a[MethodKey]) else e1;
    var e3 := if LbMethodKey in a then e2.(lbMethod := a[LbMethodKey]) else e2;
    var e4 := if PgaKey in a then
                match Atoi(a[PgaKey])
                case Some(i) => e3.(pga := i)
                case None => e3
              else e3;
    if MaintenanceKey in a then e4.(maintenance := true) else e4
  }

  /** With none of the recognised keys present, the resolver returns the defaults. */
  lemma ResolveDefaults(a: map<string, string>)
    requires forall k :: k in a ==> !Recognised(k)
    ensures Resolve(a) == Endpoint("/", "GET", "", 0, false)
  {
    assert PathKey !in a && MethodKey !in a && LbMethodKey !in a;
    assert PgaKey !in a && MaintenanceKey !in a;
  }

  /**
    Setting one annotation changes at most the field that key governs: an
    unrecognised key changes nothing, and each recognised key leaves the
    other four fields as they were.
   */
  lemma ResolveOverridesOneField(a: map<string, string>, k: string, v: string)
    ensures var before, after := Resolve(a), Resolve(a[k := v]);
      && (k == PathKey ==> after.path == v)
      && (k == MethodKey ==> after.httpMethod == v)
      && (k == LbMethodKey ==> after.lbMethod == v)
      && (k != PathKey ==> after.path == before.path)
      && (k != MethodKey ==> after.httpMethod == before.httpMethod)
      && (k != LbMethodKey ==> after.lbMethod == before.lbMethod)
      && (k != PgaKey ==> after.pga == before.pga)
      && (k != MaintenanceKey ==> after.maintenance == before.maintenance)
      && (!Recognised(k) ==> after == before)
  {
  }

  /** A pool-PGA value that does not parse leaves the PGA at zero; nothing fails. */
  lemma ResolveIgnoresBadPga(a: map<string, string>)
    requires PgaKey in a && Atoi(a[PgaKey]).None?
    ensures Resolve(a).pga == 0
    ensures Resolve(a) == Resolve(a - {PgaKey})
  {
  }

  /** The maintenance flag is set by the key alone, even with an empty value. */
  lemma MaintenanceByPresence(a: map<string, string>, v: string)
    ensures Resolve(a[MaintenanceKey := v]).maintenance
    ensures !Resolve(a - {MaintenanceKey}).maintenance
  {
  }

  /**
    The managed predicate: the host ends with the watched suffix (a plain
    string suffix) or the opt-in key is present, whatever its value.
   */
  predicate Managed(host: string, a: map<string, string>, hostToWatch: string) {
    HasSuffix(host, hostToWatch) || LbEnabledKey in a
  }

  /** The suffix test has no label boundary: `footest.com` is watched under `test.com`. */
  lemma NoLabelBoundary()
    ensures Managed("footest.com", map[], "test.com")
    ensures !Managed("foo.testx.com", map[], "test.com")
  {
    assert "footest.com"[3..] == "test.com";
  }
}
