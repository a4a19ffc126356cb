/** pkg/util/proxy: the cluster's proxy variables, handed down unless the user defines any. */
module Proxy {
  import opened Outcomes
  import opened Text
  import opened FirstWins
  import opened EnvVars

  /** The operator's own environment; None stands for an unset variable. */
  datatype ClusterEnv = ClusterEnv(httpsProxy: Option<string>, httpProxy: Option<string>, noProxy: Option<string>)

  const HTTPS_PROXY := "HTTPS_PROXY"
  const HTTP_PROXY := "HTTP_PROXY"
  const NO_PROXY := "NO_PROXY"

  predicate UserDefined(envs: seq<EnvVar>) {
    || Lookup(envs, HTTPS_PROXY).Some?
    || Lookup(envs, HTTP_PROXY).Some?
    || Lookup(envs, NO_PROXY).Some?
  }

  predicate ClusterDefined(c: ClusterEnv) {
    c.httpsProxy.GetOr("") != "" || c.httpProxy.GetOr("") != "" || c.noProxy.GetOr("") != ""
  }

  function OneIfSet(name: string, value: Option<string>): seq<EnvVar> {
    if value.Some? then [Literal(name, value.value)] else []
  }

  /** The cluster's proxy variables; a variable that is set but empty counts only beside a non-empty one. */
  function ClusterLayer(c: ClusterEnv): seq<EnvVar> {
    if ClusterDefined(c) then
      OneIfSet(HTTPS_PROXY, c.httpsProxy) + OneIfSet(HTTP_PROXY, c.httpProxy) + OneIfSet(NO_PROXY, c.noProxy)
    else []
  }

  /** The list HTTPSettings leaves: the cluster's layer is appended whole or not at all. */
  function Settings(envs: seq<EnvVar>, c: ClusterEnv): seq<EnvVar> {
    if UserDefined(envs) then envs else envs + ClusterLayer(c)
  }

  function DropLeadingEmpty(parts: seq<string>): seq<string> {
    if parts != [] && parts[0] == "" then DropLeadingEmpty(parts[1..]) else parts
  }

  function Trimmed(parts: seq<string>): seq<string> {
    seq(|parts|, i requires 0 <= i < |parts| => Trim(parts[i], ' '))
  }

  /** http.nonProxyHosts: the hosts joined with bars, without the leading empty ones. */
  function NonProxyHosts(value: string): string {
    Join(DropLeadingEmpty(Trimmed(Split(value, ','))), "|")
  }

  /** The Java properties of the final list; `parse` stands for parseHTTPProxy. HTTP_PROXY replaces
      everything HTTPS_PROXY gave. */
  function JavaProperties(envs: seq<EnvVar>, parse: string -> map<string, string>): map<string, string> {
    var https, http, no := Lookup(envs, HTTPS_PROXY), Lookup(envs, HTTP_PROXY), Lookup(envs, NO_PROXY);
    var props := if http.Some? then parse(http.value.value)
                 else if https.Some? then parse(https.value.value)
                 else map[];
    var hosts := if no.Some? then NonProxyHosts(no.value.value) else "";
    if hosts != "" then props["http.nonProxyHosts" := hosts] else props
  }

  // ---------- properties ----------

  /** What the cluster offers under a name. */
  function Offered(c: ClusterEnv, name: string): Option<string> {
    if name == "HTTPS_PROXY" then c.httpsProxy
    else if name == "HTTP_PROXY" then c.httpProxy
    else if name == "NO_PROXY" then c.noProxy
    else None
  }

  lemma LayerLookup(c: ClusterEnv, name: string)
    requires ClusterDefined(c)
    ensures Lookup(ClusterLayer(c), name) ==
      if Offered(c, name).Some? then Some(Literal(name, Offered(c, name).value)) else None
  {
    var x, y := OneIfSet(HTTPS_PROXY, c.httpsProxy), OneIfSet(HTTP_PROXY, c.httpProxy);
    var z := OneIfSet(NO_PROXY, c.noProxy);
    FindConcat(x, y, BY_NAME, name);
    FindConcat(x + y, z, BY_NAME, name);
    OneLookup(HTTPS_PROXY, c.httpsProxy, name);
    OneLookup(HTTP_PROXY, c.httpProxy, name);
    OneLookup(NO_PROXY, c.noProxy, name);
  }

  lemma OneLookup(key: string, value: Option<string>, name: string)
    ensures Lookup(OneIfSet(key, value), name) ==
      if value.Some? && name == key then Some(Literal(key, value.value)) else None
  {
    assert value.Some? ==> OneIfSet(key, value)[1..] == [];
  }

  /** Every variable is the user's; a proxy variable of the cluster counts only when the user defines none of
      the three and the cluster sets one of them to something. */
  lemma SettingsLookup(envs: seq<EnvVar>, c: ClusterEnv, name: string)
    ensures
      var own := [Lookup(envs, "HTTPS_PROXY"), Lookup(envs, "HTTP_PROXY"), Lookup(envs, "NO_PROXY")];
      var given := [c.httpsProxy.GetOr(""), c.httpProxy.GetOr(""), c.noProxy.GetOr("")];
      Lookup(Settings(envs, c), name) ==
        if own == [None, None, None] && given != ["", "", ""] && Offered(c, name).Some? then
          Some(Literal(name, Offered(c, name).value))
        else Lookup(envs, name)
  {
    FindConcat(envs, ClusterLayer(c), BY_NAME, name);
    if ClusterDefined(c) {
      LayerLookup(c, name);
    } else {
      assert envs + [] == envs;
    }
  }

  /** Handing the settings down a second time changes nothing, whatever was added in between. */
  lemma SettingsTwice(envs: seq<EnvVar>, more: seq<EnvVar>, c: ClusterEnv)
    ensures var all := Combined(Settings(envs, c), more); Settings(all, c) == all
  {
    var first := Settings(envs, c);
    var all := Combined(first, more);
    LookupCombined(first, more, HTTPS_PROXY);
    LookupCombined(first, more, HTTP_PROXY);
    LookupCombined(first, more, NO_PROXY);
    if !UserDefined(envs) && ClusterDefined(c) {
      ClusterLayerIsSeen(envs, c);
    } else {
      assert all + [] == all;
    }
  }

  lemma ClusterLayerIsSeen(envs: seq<EnvVar>, c: ClusterEnv)
    requires ClusterDefined(c)
    ensures UserDefined(envs + ClusterLayer(c))
  {
    var layer := ClusterLayer(c);
    FindConcat(envs, layer, BY_NAME, HTTPS_PROXY);
    FindConcat(envs, layer, BY_NAME, HTTP_PROXY);
    FindConcat(envs, layer, BY_NAME, NO_PROXY);
    assert layer != [];
    assert BY_NAME(layer[0]) in [HTTPS_PROXY, HTTP_PROXY, NO_PROXY];
    assert Lookup(layer, layer[0].name) == Some(layer[0]);
  }

  lemma AppendIfSet(envs: seq<EnvVar>, name: string, value: Option<string>)
    requires Lookup(envs, name).None?
    ensures value.Some? ==> Put(envs, Literal(name, value.value)) == envs + OneIfSet(name, value)
    ensures forall n: string :: n != name ==> Lookup(envs + OneIfSet(name, value), n) == Lookup(envs, n)
  {
    LookupAt(envs, name);
    if value.Some? {
      PutAt(envs, Literal(name, value.value));
    }
    forall n: string | n != name
      ensures Lookup(envs + OneIfSet(name, value), n) == Lookup(envs, n)
    {
      FindConcat(envs, OneIfSet(name, value), BY_NAME, n);
    }
  }

  // ---------- the operations ----------

  method ParseNoProxy(value: string) returns (r: string)
    ensures r == NonProxyHosts(value)
  {
    var strs := Split(value, ',');
    var noproxyStr := "";
    var i := 0;
    ghost var all := Trimmed(strs);
    while i < |strs|
      invariant 0 <= i <= |strs|
      invariant noproxyStr == Join(DropLeadingEmpty(all[..i]), "|")
      invariant noproxyStr == "" ==> DropLeadingEmpty(all[..i]) == []
    {
      var s := Trim(strs[i], ' ');
      assert all[..i + 1] == all[..i] + [s];
      DropLeadingSnoc(all[..i], s);
      JoinSnoc(DropLeadingEmpty(all[..i]), s, "|");
      if noproxyStr == "" {
        noproxyStr := s;
      } else {
        noproxyStr := noproxyStr + "|" + s;
      }
      i := i + 1;
    }
    assert all[..i] == all;
    return noproxyStr;
  }

  lemma {:induction false} DropLeadingSnoc(parts: seq<string>, s: string)
    ensures DropLeadingEmpty(parts + [s]) ==
      if DropLeadingEmpty(parts) == [] && s == "" then [] else DropLeadingEmpty(parts) + [s]
  {
    if parts != [] && parts[0] == "" {
      assert (parts + [s])[1..] == parts[1..] + [s];
      DropLeadingSnoc(parts[1..], s);
    } else if parts == [] {
      assert parts + [s] == [s];
      assert [s][1..] == [];
    }
  }

  /** Reads the variable `name`; stands for envvar.Get followed by a look through the pointer. */
  method Read(envs: EnvList, name: string) returns (v: Option<EnvVar>)
    ensures v == Lookup(envs.items, name)
  {
    var at := envs.Get(name);
    LookupAt(envs.items, name);
    v := if at.Some? then Some(envs.items[at.value]) else None;
  }

  method SetIfSet(envs: EnvList, name: string, value: Option<string>)
    modifies envs
    ensures envs.items == PutIfSet(old(envs.items), name, value)
  {
    if value.Some? {
      envs.SetVal(name, value.value);
    }
  }

  method HandDown(envs: EnvList, c: ClusterEnv)
    modifies envs
    ensures envs.items == Settings(old(envs.items), c)
  {
    var https := Read(envs, HTTPS_PROXY);
    var http := Read(envs, HTTP_PROXY);
    var no := Read(envs, NO_PROXY);
    if https.None? && http.None? && no.None? {
      if ClusterDefined(c) {
        AddClusterLayer(envs.items, c);
        SetIfSet(envs, HTTPS_PROXY, c.httpsProxy);
        SetIfSet(envs, HTTP_PROXY, c.httpProxy);
        SetIfSet(envs, NO_PROXY, c.noProxy);
      } else {
        assert envs.items + [] == envs.items;
      }
    }
  }

  method HTTPSettings(envs: EnvList, c: ClusterEnv, parse: string -> map<string, string>)
    returns (javaProps: map<string, string>)
    modifies envs
    ensures envs.items == Settings(old(envs.items), c)
    ensures javaProps == JavaProperties(envs.items, parse)
  {
    HandDown(envs, c);
    javaProps := map[];
    var https := Read(envs, HTTPS_PROXY);
    if https.Some? {
      javaProps := parse(https.value.value);
    }
    var http := Read(envs, HTTP_PROXY);
    if http.Some? {
      javaProps := parse(http.value.value);
    }
    var no := Read(envs, NO_PROXY);
    if no.Some? {
      var nonProxyHosts := ParseNoProxy(no.value.value);
      if nonProxyHosts != "" {
        javaProps := javaProps["http.nonProxyHosts" := nonProxyHosts];
      }
    }
  }

  /** `vars` after the write of a variable the cluster sets. */
  function PutIfSet(vars: seq<EnvVar>, name: string, value: Option<string>): seq<EnvVar> {
    if value.Some? then Put(vars, Literal(name, value.value)) else vars
  }

  lemma AddClusterLayer(envs: seq<EnvVar>, c: ClusterEnv)
    requires !UserDefined(envs) && ClusterDefined(c)
    ensures PutIfSet(PutIfSet(PutIfSet(envs, HTTPS_PROXY, c.httpsProxy), HTTP_PROXY, c.httpProxy), NO_PROXY, c.noProxy)
      == envs + ClusterLayer(c)
  {
    var one := envs + OneIfSet(HTTPS_PROXY, c.httpsProxy);
    var two := one + OneIfSet(HTTP_PROXY, c.httpProxy);
    AppendIfSet(envs, HTTPS_PROXY, c.httpsProxy);
    assert PutIfSet(envs, HTTPS_PROXY, c.httpsProxy) == one;
    AppendIfSet(one, HTTP_PROXY, c.httpProxy);
    assert PutIfSet(one, HTTP_PROXY, c.httpProxy) == two;
    AppendIfSet(two, NO_PROXY, c.noProxy);
    LayerByParts(envs, c);
  }

  lemma LayerByParts(envs: seq<EnvVar>, c: ClusterEnv)
    requires ClusterDefined(c)
    ensures
      var x, y := OneIfSet(HTTPS_PROXY, c.httpsProxy), OneIfSet(HTTP_PROXY, c.httpProxy);
      envs + x + y + OneIfSet(NO_PROXY, c.noProxy) == envs + ClusterLayer(c)
  {
    var x, y := OneIfSet(HTTPS_PROXY, c.httpsProxy), OneIfSet(HTTP_PROXY, c.httpProxy);
    var z := OneIfSet(NO_PROXY, c.noProxy);
    assert envs + x + y + z == envs + (x + y + z);
  }

  /** HTTP_PROXY replaces everything that HTTPS_PROXY gave; NO_PROXY adds the hosts that go without. */
  lemma PropertiesByVariable(envs: seq<EnvVar>, parse: string -> map<string, string>)
    ensures
      var https, http, no := Lookup(envs, "HTTPS_PROXY"), Lookup(envs, "HTTP_PROXY"), Lookup(envs, "NO_PROXY");
      var props := JavaProperties(envs, parse);
      && (http.Some? && no.None? ==> props == parse(http.value.value))
      && (http.None? && https.Some? && no.None? ==> props == parse(https.value.value))
      && (http.None? && https.None? && no.None? ==> props == map[])
      && (no.Some? ==>
            var hosts := NonProxyHosts(no.value.value);
            && (hosts == "" ==> props == JavaProperties(Others(envs, "NO_PROXY"), parse))
            && (hosts != "" ==>
                  props == JavaProperties(Others(envs, "NO_PROXY"), parse)["http.nonProxyHosts" := hosts]))
  {
    OthersLookup(envs, "NO_PROXY", "HTTPS_PROXY");
    OthersLookup(envs, "NO_PROXY", "HTTP_PROXY");
    OthersLookup(envs, "NO_PROXY", "NO_PROXY");
  }

  lemma {:induction false} OthersLookup(envs: seq<EnvVar>, name: string, n: string)
    ensures Lookup(Others(envs, name), n) == if n == name then None else Lookup(envs, n)
  {
    if envs != [] {
      OthersLookup(envs[1..], name, n);
      var rest := Others(envs[1..], name);
      assert [envs[0]] + rest == [envs[0]] + rest && ([envs[0]] + rest)[1..] == rest;
      assert [] + rest == rest;
    }
  }

  predicate Blank(s: string) {
    forall i :: 0 <= i < |s| ==> s[i] == ' '
  }

  /** A host as it may be written between two commas. */
  predicate Padded(part: string, host: string, left: string, right: string) {
    && part == left + host + right && Blank(left) && Blank(right)
    && (host == "" || (host[0] != ' ' && host[|host| - 1] != ' '))
  }

  lemma {:induction false} TrimLeftBlank(left: string, rest: string)
    requires Blank(left) && rest != "" && rest[0] != ' '
    ensures TrimLeft(left + rest, ' ') == rest
  {
    if left == "" {
      assert left + rest == rest;
    } else {
      assert (left + rest)[1..] == left[1..] + rest;
      TrimLeftBlank(left[1..], rest);
    }
  }

  lemma {:induction false} TrimRightBlank(rest: string, right: string)
    requires Blank(right) && rest != "" && rest[|rest| - 1] != ' '
    ensures TrimRight(rest + right, ' ') == rest
  {
    if right == "" {
      assert rest + right == rest;
    } else {
      assert (rest + right)[..|rest + right| - 1] == rest + right[..|right| - 1];
      TrimRightBlank(rest, right[..|right| - 1]);
    }
  }

  lemma TrimPadded(part: string, host: string, left: string, right: string)
    requires Padded(part, host, left, right)
    ensures Trim(part, ' ') == host
  {
    if host == "" {
      assert part == left + right;
      TrimBlank(part);
    } else {
      assert part == left + (host + right);
      TrimLeftBlank(left, host + right);
      TrimRightBlank(host, right);
    }
  }

  lemma {:induction false} TrimBlank(s: string)
    requires Blank(s)
    ensures TrimLeft(s, ' ') == ""
  {
    if s != "" {
      TrimBlank(s[1..]);
    }
  }

  lemma {:induction false} SplitFirst(p: string, rest: string)
    requires ',' !in p
    ensures Split(p + "," + rest, ',') == [p] + Split(rest, ',')
    ensures Split(p, ',') == [p]
  {
    if p == "" {
      assert p + "," + rest == "," + rest && ("," + rest)[1..] == rest;
    } else {
      assert (p + "," + rest)[1..] == p[1..] + "," + rest;
      SplitFirst(p[1..], rest);
      assert [p[0]] + p[1..] == p;
    }
  }

  lemma {:induction false} SplitJoined(parts: seq<string>)
    requires parts != [] && forall i :: 0 <= i < |parts| ==> ',' !in parts[i]
    ensures Split(Join(parts, ","), ',') == parts
  {
    if |parts| == 1 {
      SplitFirst(parts[0], "");
    } else {
      SplitFirst(parts[0], Join(parts[1..], ","));
      SplitJoined(parts[1..]);
    }
  }

  lemma {:induction false} LeadingDropped(parts: seq<string>, n: nat)
    requires n <= |parts| && (forall i :: 0 <= i < n ==> parts[i] == "") && (n < |parts| ==> parts[n] != "")
    ensures DropLeadingEmpty(parts) == parts[n..]
  {
    if n > 0 {
      LeadingDropped(parts[1..], n - 1);
    }
  }

  /** Hosts separated by commas, with any spaces around them, become the hosts separated by bars: empty ones are
      left out at the start and kept everywhere else. */
  lemma HostsJoined(parts: seq<string>, hosts: seq<string>, left: seq<string>, right: seq<string>, n: nat)
    requires |parts| == |hosts| == |left| == |right| > 0
    requires forall i :: 0 <= i < |parts| ==> ',' !in parts[i] && Padded(parts[i], hosts[i], left[i], right[i])
    requires n <= |hosts| && (forall i :: 0 <= i < n ==> hosts[i] == "") && (n < |hosts| ==> hosts[n] != "")
    ensures NonProxyHosts(Join(parts, ",")) == Join(hosts[n..], "|")
  {
    SplitJoined(parts);
    forall i | 0 <= i < |parts|
      ensures Trim(parts[i], ' ') == hosts[i]
    {
      TrimPadded(parts[i], hosts[i], left[i], right[i]);
    }
    assert Trimmed(parts) == hosts;
    LeadingDropped(hosts, n);
  }

  lemma KeepUnique(vars: seq<EnvVar>, name: string, value: Option<string>)
    requires UniqueNames(vars)
    ensures UniqueNames(PutIfSet(vars, name, value))
  {
    if value.Some? {
      PutUnique(vars, Literal(name, value.value));
    }
  }

  lemma SettingsUnique(envs: seq<EnvVar>, c: ClusterEnv)
    requires UniqueNames(envs)
    ensures UniqueNames(Settings(envs, c))
  {
    if !UserDefined(envs) && ClusterDefined(c) {
      AddClusterLayer(envs, c);
      KeepUnique(envs, HTTPS_PROXY, c.httpsProxy);
      var one := PutIfSet(envs, HTTPS_PROXY, c.httpsProxy);
      KeepUnique(one, HTTP_PROXY, c.httpProxy);
      KeepUnique(PutIfSet(one, HTTP_PROXY, c.httpProxy), NO_PROXY, c.noProxy);
    } else {
      assert envs + [] == envs;
    }
  }

  /** The Java properties depend on the three proxy variables only. */
  lemma SameProperties(a: seq<EnvVar>, b: seq<EnvVar>, parse: string -> map<string, string>)
    requires Lookup(a, HTTPS_PROXY) == Lookup(b, HTTPS_PROXY) && Lookup(a, HTTP_PROXY) == Lookup(b, HTTP_PROXY)
    requires Lookup(a, NO_PROXY) == Lookup(b, NO_PROXY)
    ensures JavaProperties(a, parse) == JavaProperties(b, parse)
  {}
}
