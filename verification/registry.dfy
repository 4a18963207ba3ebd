/**
 The ordered list of monitored servers: removal by index, the aggregate
 counts shown above the list, and the built-in fallback list.
 */
module Registry {
  import opened Numbers
  import opened Servers

  /**
   `remove_server`: an index inside the list removes exactly that entry and
   keeps the order of the rest; any other index leaves the list as it is.
   */
  function RemoveServer(servers: seq<Server>, index: nat): (r: seq<Server>)
    ensures index >= |servers| ==> r == servers
    ensures index < |servers| ==> |r| == |servers| - 1
    ensures index < |servers| ==> forall j :: 0 <= j < index ==> r[j] == servers[j]
    ensures index < |servers| ==> forall j :: index <= j < |r| ==> r[j] == servers[j + 1]
    ensures index < |servers| ==> multiset(r) + multiset{servers[index]} == multiset(servers)
  {
    if index < |servers| then
      var r := servers[..index] + servers[index + 1..];
      assert servers == servers[..index] + [servers[index]] + servers[index + 1..];
      r
    else servers
  }

  /** The aggregate `(total, online, offline)` the window header shows. */
  datatype Stats = Stats(total: nat, online: nat, offline: nat)

  /** Positions whose status is `Online`: the reference definition of the online count. */
  function OnlineIndices(servers: seq<Server>): set<nat> {
    set i: nat | i < |servers| && servers[i].status == Online
  }

  /** The filter-and-count over the list, taken from the last entry backwards. */
  function CountOnline(servers: seq<Server>): (n: nat)
    ensures n <= |servers|
  {
    if |servers| == 0 then 0
    else
      CountOnline(servers[..|servers| - 1]) + (if servers[|servers| - 1].status == Online then 1 else 0)
  }

  lemma {:induction false} CountOnlineIsOnlineIndices(servers: seq<Server>)
    ensures CountOnline(servers) == |OnlineIndices(servers)|
  {
    if |servers| > 0 {
      var last := |servers| - 1;
      var init := servers[..last];
      CountOnlineIsOnlineIndices(init);
      if servers[last].status == Online {
        assert OnlineIndices(servers) == OnlineIndices(init) + {last};
      } else {
        assert OnlineIndices(servers) == OnlineIndices(init);
      }
    }
  }

  /**
   `get_stats`: the total is the list length, the online count is the number
   of `Online` entries, and every other entry (unchecked, offline or in error)
   counts as offline, so the subtraction never underflows.
   */
  function GetStats(servers: seq<Server>): (r: Stats)
    ensures r.total == |servers|
    ensures r.online == |OnlineIndices(servers)|
    ensures r.online <= r.total
    ensures r.online + r.offline == r.total
  {
    CountOnlineIsOnlineIndices(servers);
    var online := CountOnline(servers);
    Stats(|servers|, online, |servers| - online)
  }

  /** The counts of a concatenation are the sums of the counts of its parts. */
  lemma {:induction false} CountOnlineAppend(a: seq<Server>, b: seq<Server>)
    ensures CountOnline(a + b) == CountOnline(a) + CountOnline(b)
    decreases |b|
  {
    if |b| > 0 {
      var last := |b| - 1;
      assert (a + b)[..|a + b| - 1] == a + b[..last];
      CountOnlineAppend(a, b[..last]);
    } else {
      assert a + b == a;
    }
  }

  /** An empty list gives all-zero counts. */
  lemma StatsEmpty()
    ensures GetStats([]) == Stats(0, 0, 0)
  {
  }

  /** Removing an entry lowers the total by one and the online count by one exactly when the entry was online. */
  lemma StatsAfterRemove(servers: seq<Server>, index: nat)
    requires index < |servers|
    ensures var before, after := GetStats(servers), GetStats(RemoveServer(servers, index));
      && after.total == before.total - 1
      && (servers[index].status == Online ==> after.online == before.online - 1 && after.offline == before.offline)
      && (servers[index].status != Online ==> after.online == before.online && after.offline == before.offline - 1)
  {
    var r := RemoveServer(servers, index);
    assert servers == servers[..index] + [servers[index]] + servers[index + 1..];
    assert r == servers[..index] + servers[index + 1..];
    CountOnlineAppend(servers[..index] + [servers[index]], servers[index + 1..]);
    CountOnlineAppend(servers[..index], [servers[index]]);
    CountOnlineAppend(servers[..index], servers[index + 1..]);
    assert CountOnline([servers[index]]) == (if servers[index].status == Online then 1 else 0) by {
      assert [servers[index]][..0] == [];
    }
  }

  const DefaultIp: string := "143.86.170.164"

  /** The nine fallback ports, in the order they are listed. */
  const DefaultPorts: seq<u16> := [8025, 8081, 8000, 3000, 8061, 8080, 8086, 8082, 11434]

  /** The generated display name `服务器-<port>`. */
  function DefaultName(port: u16): string {
    "服务器-" + Decimal(port)
  }

  /** One fresh, never-probed entry per port, all on the given host. */
  function ServersOn(ip: string, ports: seq<u16>): (r: seq<Server>)
    ensures |r| == |ports|
    ensures forall i :: 0 <= i < |ports| ==>
      && r[i].name == DefaultName(ports[i])
      && r[i].ip == ip
      && r[i].port == ports[i]
      && r[i].status == Unchecked
      && UrlConsistent(r[i])
  {
    if |ports| == 0 then []
    else
      var p := ports[|ports| - 1];
      ServersOn(ip, ports[..|ports| - 1]) + [Server(DefaultName(p), ip, p, Unchecked, Url(ip, p))]
  }

  /**
   `load_default_servers`: exactly nine entries on the default host, in the
   listed port order, all unchecked, with generated names and derived URLs.
   */
  function DefaultServers(): (r: seq<Server>)
    ensures |r| == 9
    ensures forall i :: 0 <= i < 9 ==>
      && r[i].port == DefaultPorts[i]
      && r[i].ip == DefaultIp
      && r[i].status == Unchecked
      && r[i].name == DefaultName(DefaultPorts[i])
      && r[i].url == Url(DefaultIp, DefaultPorts[i])
  {
    ServersOn(DefaultIp, DefaultPorts)
  }

  /** Every fallback entry's URL is the one derived from its host and port. */
  lemma DefaultServersConsistent()
    ensures AllUrlsConsistent(DefaultServers())
  {
  }

  /** The fallback list shows nine servers, none of them online. */
  lemma DefaultServersStats()
    ensures GetStats(DefaultServers()) == Stats(9, 0, 9)
  {
    var d := DefaultServers();
    assert OnlineIndices(d) == {} by {
      forall i: nat | i < |d|
        ensures d[i].status != Online
      {
      }
    }
  }

  lemma DefaultPortsDistinct()
    ensures forall i, j :: 0 <= i < j < |DefaultPorts| ==> DefaultPorts[i] != DefaultPorts[j]
  {
    var p := DefaultPorts;
    assert p[0] == 8025 && p[1] == 8081 && p[2] == 8000 && p[3] == 3000 && p[4] == 8061;
    assert p[5] == 8080 && p[6] == 8086 && p[7] == 8082 && p[8] == 11434;
    forall i, j | 0 <= i < j < |p|
      ensures p[i] != p[j]
    {
      assert i in {0, 1, 2, 3, 4, 5, 6, 7} && j in {1, 2, 3, 4, 5, 6, 7, 8};
    }
  }

  /** No two fallback entries probe the same URL. */
  lemma DefaultUrlsDistinct()
    ensures forall i, j :: 0 <= i < j < 9 ==> DefaultServers()[i].url != DefaultServers()[j].url
  {
    var d := DefaultServers();
    DefaultPortsDistinct();
    forall i, j | 0 <= i < j < 9
      ensures d[i].url != d[j].url
    {
      if d[i].url == d[j].url {
        UrlInjective(DefaultIp, DefaultPorts[i], DefaultPorts[j]);
        assert false;
      }
    }
  }
}
