/** The host side of a request (index.ts:74-87, 185-200, 257-259; index.js:93-105, 184-193,
    231-233): the virtual-host table read from `vhosts.json`, the settings one entry gives, the
    extension blacklist, the lookup key made from the `Host` header and the client address. */
module HostRegistry {
  import opened Opt
  import opened Text

  /** A property of a `vhosts.json` entry: absent, `null`, or a string. */
  datatype Field = Missing | Null | Text(s: string)

  /** One entry of `vhosts.json` as JSON gives it. */
  datatype VHost = VHost(root: Field, filemanager: Option<bool>, error403document: Field, error404document: Field)

  /** The merged settings `getHostSettings` returns. An error document is `None` for `null`. */
  datatype HostSettings = HostSettings(
    root: Field,
    filemanager: bool,
    error403document: Option<string>,
    error404document: Option<string>)

  /** `{ filemanager: false, error403document: null, error404document: null, ...entry }`:
      every property the entry has overrides the default; `root` has no default. */
  function Merge(entry: VHost): (s: HostSettings) {
    HostSettings(
      entry.root,
      entry.filemanager.GetOr(false),
      if entry.error403document.Text? then Some(entry.error403document.s) else None,
      if entry.error404document.Text? then Some(entry.error404document.s) else None)
  }

  /** `getHostSettings(host)`, with `in` read as "is one of the table's own keys". */
  function GetHostSettings(vhosts: map<string, VHost>, host: string): (r: Option<HostSettings>)
    ensures r.None? <==> host !in vhosts
    ensures r.Some? ==> r.value == Merge(vhosts[host])
  {
    if host in vhosts then Some(Merge(vhosts[host])) else None
  }

  /** The names `in` also finds on any plain object parsed from JSON: the properties it
      inherits from `Object.prototype`. */
  const ObjectPrototypeNames: set<string> := {
    "constructor", "hasOwnProperty", "isPrototypeOf", "propertyIsEnumerable", "toLocaleString",
    "toString", "valueOf", "__proto__", "__defineGetter__", "__defineSetter__",
    "__lookupGetter__", "__lookupSetter__"}

  /** `getHostSettings(host)` as written: `host in vhosts` is also true for an inherited name,
      and spreading the inherited value (a function, or the prototype itself) adds no own
      property, so the defaults come back with no `root`. */
  function GetHostSettingsAsWritten(vhosts: map<string, VHost>, host: string): (r: Option<HostSettings>)
    ensures r.None? <==> host !in vhosts && host !in ObjectPrototypeNames
  {
    if host in vhosts then Some(Merge(vhosts[host]))
    else if host in ObjectPrototypeNames then Some(Merge(VHost(Missing, None, Missing, Missing)))
    else None
  }

  /** `hostSettings.root + s`: JavaScript string concatenation with a missing or null root. */
  function RootText(root: Field): string {
    match root
    case Missing => "undefined"
    case Null => "null"
    case Text(s) => s
  }

  // ---- host and client ----

  /** `req.headers.host.replace('www.', '')`: the first "www." anywhere in the header goes. */
  function HostKey(header: string): (key: string)
    ensures |key| == |header| || |key| + 4 == |header|
  {
    ReplaceFirst(header, "www.", "")
  }

  /** `req.headers.ip ?? req.socket.remoteAddress.replace(/::ffff:/, '')`; `None` when the
      socket has no address and the `replace` throws. */
  function ClientIp(ipHeader: Option<string>, remoteAddress: Option<string>): (ip: Option<string>)
    ensures ipHeader.Some? ==> ip == ipHeader
    ensures ip.None? <==> ipHeader.None? && remoteAddress.None?
  {
    if ipHeader.Some? then ipHeader
    else if remoteAddress.Some? then Some(ReplaceFirst(remoteAddress.value, "::ffff:", ""))
    else None
  }

  // ---- extension blacklist ----

  /** The blacklist used when `extension-blacklist.json` does not exist. */
  const DefaultBlacklist: seq<string> := [".node.js", ".node.ts"]

  /** `parseJSONFile('./extension-blacklist.json') ?? [...]`: the file's list, or the default. */
  function LoadBlacklist(file: Option<seq<string>>): (b: seq<string>)
    ensures file.Some? ==> b == file.value
    ensures file.None? ==> b == DefaultBlacklist
  {
    file.GetOr(DefaultBlacklist)
  }

  /** Some entry of the blacklist is a suffix of `path`. */
  predicate Blacklisted(blacklist: seq<string>, path: string) {
    exists i :: 0 <= i < |blacklist| && EndsWith(path, blacklist[i])
  }

  /** `fileAllowed(path)`: the blacklist walked with an early `return false`. */
  method FileAllowed(blacklist: seq<string>, path: string) returns (allowed: bool)
    ensures allowed <==> !Blacklisted(blacklist, path)
  {
    var i := 0;
    while i < |blacklist|
      invariant 0 <= i <= |blacklist|
      invariant forall j :: 0 <= j < i ==> !EndsWith(path, blacklist[j])
    {
      if EndsWith(path, blacklist[i]) {
        return false;
      }
      i := i + 1;
    }
    return true;
  }

  // ---- properties ----

  /** An entry without error documents gets `null` for both and `filemanager` false unless
      it says otherwise; a document the entry names is kept as it is. */
  lemma SettingsKeepTheEntry(vhosts: map<string, VHost>, host: string)
    requires host in vhosts
    ensures var s := GetHostSettings(vhosts, host).value;
      var e := vhosts[host];
      && s.root == e.root
      && (e.filemanager.None? ==> !s.filemanager)
      && (e.filemanager.Some? ==> s.filemanager == e.filemanager.value)
      && (s.error403document.Some? <==> e.error403document.Text?)
      && (s.error404document.Some? <==> e.error404document.Text?)
      && (e.error403document.Text? ==> s.error403document.value == e.error403document.s)
      && (e.error404document.Text? ==> s.error404document.value == e.error404document.s)
  {
  }

  /** A Host header "constructor" is an unknown host, and `in` still finds it. */
  lemma InheritedNameIsFoundAsWritten(vhosts: map<string, VHost>)
    requires "constructor" !in vhosts
    ensures GetHostSettings(vhosts, "constructor").None?
    ensures GetHostSettingsAsWritten(vhosts, "constructor")
      == Some(HostSettings(Missing, false, None, None))
    ensures RootText(GetHostSettingsAsWritten(vhosts, "constructor").value.root) == "undefined"
  {
  }

  /** The two lookups agree on every name that is not inherited from `Object.prototype`. */
  lemma LookupsAgreeOffThePrototype(vhosts: map<string, VHost>, host: string)
    requires host !in ObjectPrototypeNames || host in vhosts
    ensures GetHostSettingsAsWritten(vhosts, host) == GetHostSettings(vhosts, host)
  {
  }

  /** A leading "www." is dropped. */
  lemma HostKeyDropsLeadingWww(host: string)
    ensures HostKey("www." + host) == host
  {
    ReplaceFirstAtStart("www.", host, "");
  }

  /** A header without "www." is its own key. */
  lemma HostKeyWithoutWww(header: string)
    requires forall j: nat :: !OccursAt(header, "www.", j)
    ensures HostKey(header) == header
  {
    ReplaceFirstAbsent(header, "www.", "");
  }

  /** Only the first "www." goes, wherever it is in the header. */
  lemma HostKeyDropsFirstWww(before: string, after: string)
    requires forall j: nat :: j < |before| ==> !OccursAt(before + "www." + after, "www.", j)
    ensures HostKey(before + "www." + after) == before + after
  {
    var s := before + "www." + after;
    assert s[|before|..|before| + 4] == "www.";
    ReplaceFirstSplits(s, "www.", "", |before|);
    assert s[..|before|] == before && s[|before| + 4..] == after;
  }

  /** "shop.www.example.com" becomes "shop.example.com": the "www." need not lead. */
  lemma HostKeyOfSubdomain()
    ensures HostKey("shop." + "www." + "example.com") == "shop." + "example.com"
  {
    var s := "shop." + "www." + "example.com";
    NotAt(s, "www.", 0);
    NotAt(s, "www.", 1);
    NotAt(s, "www.", 2);
    NotAt(s, "www.", 3);
    NotAt(s, "www.", 4);
    assert forall j: nat :: j < 5 ==> !OccursAt(s, "www.", j);
    HostKeyDropsFirstWww("shop.", "example.com");
  }

  /** "www.www.example.com" becomes "www.example.com": only one "www." goes. */
  lemma HostKeyDropsOneWww()
    ensures HostKey("www.www.example.com") == "www.example.com"
  {
    HostKeyDropsLeadingWww("www.example.com");
    assert "www.www.example.com" == "www." + "www.example.com";
  }

  /** A pattern cannot occur where its first character does not. */
  lemma NotAt(s: string, p: string, j: nat)
    requires j < |s| && |p| > 0 && s[j] != p[0]
    ensures !OccursAt(s, p, j)
  {
    if j + |p| <= |s| {
      assert s[j..j + |p|][0] == s[j];
    }
  }

  /** An IPv4-mapped IPv6 address loses its "::ffff:" prefix when no `ip` header is given. */
  lemma MappedAddressUnwrapped(v4: string)
    ensures ClientIp(None, Some("::ffff:" + v4)) == Some(v4)
  {
    ReplaceFirstAtStart("::ffff:", v4, "");
    assert "" + v4 == v4;
  }

  /** With the default blacklist, the server-side scripts ".node.js" and ".node.ts" are never
      sent by GET, and a plain ".js" file is. */
  lemma DefaultBlacklistCoversScripts(base: string)
    ensures Blacklisted(DefaultBlacklist, base + ".node.js")
    ensures Blacklisted(DefaultBlacklist, base + ".node.ts")
    ensures !Blacklisted(DefaultBlacklist, "app.js")
  {
    assert EndsWith(base + ".node.js", DefaultBlacklist[0]) by {
      assert (base + ".node.js")[|base|..] == ".node.js";
    }
    assert EndsWith(base + ".node.ts", DefaultBlacklist[1]) by {
      assert (base + ".node.ts")[|base|..] == ".node.ts";
    }
    assert !EndsWith("app.js", DefaultBlacklist[0]);
    assert !EndsWith("app.js", DefaultBlacklist[1]);
  }
}
