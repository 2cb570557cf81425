/** The state sm-client holds about the two sites before a procedure starts. */
module Cluster {
  import opened Graphs
  import opened Wrappers
  import opened Engine

  /** The settings of a service as one site reports them. */
  datatype ServiceConf = ServiceConf(
    mod: string,
    before: seq<Service>,
    after: seq<Service>,
    sequence: seq<string>,
    allowedStandbyStateList: seq<string>,
    timeout: Option<int>)

  /** `order` is the order of the service dictionary. */
  datatype SiteState = SiteState(status: bool, order: seq<Service>, services: map<Service, ServiceConf>)

  /**
   * `conf` lists the configured sites; more than two are refused when the state is built.  `defaultTimeout` is how
   * long to poll a service that has no timeout of its own.
   */
  datatype ClusterState = ClusterState(conf: seq<Site>, at: map<Site, SiteState>, defaultTimeout: int)

  ghost predicate ValidCluster(c: ClusterState) {
    && |c.conf| == 2 && c.conf[0] != c.conf[1]
    && (forall s :: s in c.at <==> s in c.conf)
    && (forall s :: s in c.at ==> ValidSite(c.at[s]))
  }

  ghost predicate ValidSite(s: SiteState) {
    Distinct(s.order) && forall x :: x in s.order <==> x in s.services
  }

  /** r is the last configured site other than the given one; nothing for an unknown site or one without another. */
  ghost predicate IsOpposite(conf: seq<Site>, site: Site, r: Option<Site>) {
    match r
    case None => site !in conf || forall x :: x in conf ==> x == site
    case Some(x) =>
      && site in conf && x != site
      && exists i :: 0 <= i < |conf| && conf[i] == x && forall k :: i < k < |conf| ==> conf[k] == site
  }

  /** get_opposite_site */
  method GetOppositeSite(conf: seq<Site>, site: Site) returns (r: Option<Site>)
    ensures IsOpposite(conf, site, r)
  {
    if site !in conf { return None; }
    r := None;
    ghost var last := 0;
    for i := 0 to |conf|
      invariant r.None? ==> forall k :: 0 <= k < i ==> conf[k] == site
      invariant r.Some? ==> 0 <= last < i && conf[last] == r.value != site
                            && forall k :: last < k < i ==> conf[k] == site
    {
      if conf[i] != site { r, last := Some(conf[i]), i; }
    }
  }

  function Opposite(c: ClusterState, site: Site): Site {
    if |c.conf| != 2 then site else if site == c.conf[0] then c.conf[1] else c.conf[0]
  }

  /** With two sites the loop finds the other one. */
  lemma OppositeIsFound(c: ClusterState, site: Site, r: Option<Site>)
    requires ValidCluster(c) && site in c.conf
    ensures IsOpposite(c.conf, site, r) <==> r == Some(Opposite(c, site))
  {
    assert c.conf[0] in c.conf && c.conf[1] in c.conf;
  }

  /** Going to the opposite site twice comes back. */
  lemma OppositeIsInvolution(c: ClusterState, site: Site)
    requires ValidCluster(c) && site in c.conf
    ensures Opposite(c, site) in c.conf && Opposite(c, site) != site && Opposite(c, Opposite(c, site)) == site
  {}

  predicate Has(c: ClusterState, site: Site, s: Service) {
    site in c.at && s in c.at[site].services
  }

  predicate Available(c: ClusterState, site: Site) {
    site in c.at && c.at[site].status
  }

  function ConfOf(c: ClusterState, site: Site, s: Service): ServiceConf
    requires Has(c, site, s)
  {
    c.at[site].services[s]
  }

  function SequenceAt(c: ClusterState, site: Site, s: Service): seq<string> {
    if Has(c, site, s) then ConfOf(c, site, s).sequence else []
  }

  /** The sites that answered, in configuration order. */
  function AvailableSites(c: ClusterState): seq<Site> {
    Filter(c, c.conf)
  }

  function Filter(c: ClusterState, sites: seq<Site>): seq<Site>
    decreases |sites|
  {
    if sites == [] then []
    else if Available(c, sites[0]) then [sites[0]] + Filter(c, sites[1..]) else Filter(c, sites[1..])
  }

  /** get_available_sites */
  method GetAvailableSites(c: ClusterState) returns (sites: seq<Site>)
    ensures sites == AvailableSites(c)
    ensures forall site :: site in sites <==> site in c.conf && site in c.at && c.at[site].status
  {
    sites := [];
    for i := 0 to |c.conf|
      invariant sites + Filter(c, c.conf[i..]) == Filter(c, c.conf)
      invariant forall site :: site in sites <==> site in c.conf[..i] && site in c.at && c.at[site].status
    {
      assert c.conf[i..][0] == c.conf[i] && c.conf[i..][1..] == c.conf[i + 1..];
      assert c.conf[..i + 1] == c.conf[..i] + [c.conf[i]];
      if c.conf[i] in c.at && c.at[c.conf[i]].status { sites := sites + [c.conf[i]]; }
    }
    assert c.conf[..|c.conf|] == c.conf;
  }
}
