/** From the namespace a user asks for to the mounts made for a session. */
module Mounts {
  import opened Splits
  import opened Wrappers

  // ------------------------------------------------------------------- mount options

  predicate Kept(part: string) {
    part != "defaults" && part != "bind"
  }

  /** The other options, in order. */
  function Others(parts: seq<string>): seq<string> {
    if parts == [] then []
    else
      var (init, last) := (parts[..|parts| - 1], parts[|parts| - 1]);
      if Kept(last) then Others(init) + [last] else Others(init)
  }

  function OptionsLeft(opt: string): string {
    Join(Others(Split(opt, ',')), ',')
  }

  predicate AsksToBind(opt: string) {
    "bind" in Split(opt, ',')
  }

  method ParseFstabOpt(opt: string) returns (flag: bool, rest: string)
    ensures flag == AsksToBind(opt) && rest == OptionsLeft(opt)
  {
    var parts := Split(opt, ',');
    var opts: seq<string> := [];
    flag := false;
    var i := 0;
    while i < |parts|
      invariant 0 <= i <= |parts|
      invariant opts == Others(parts[..i]) && (flag <==> "bind" in parts[..i])
    {
      var f := parts[i];
      assert parts[..i + 1][..i] == parts[..i];
      i := i + 1;
      if f == "defaults" {
        continue;
      }
      if f == "bind" {
        flag := true;
      } else {
        opts := opts + [f];
      }
    }
    assert parts[..i] == parts;
    rest := Join(opts, ',');
  }

  lemma {:induction false} OthersAre(parts: seq<string>)
    ensures forall p :: p in Others(parts) <==> p in parts && Kept(p)
    ensures |Others(parts)| <= |parts|
    ensures (forall p :: p in parts ==> Kept(p)) ==> Others(parts) == parts
  {
    if parts != [] {
      OthersAre(parts[..|parts| - 1]);
    }
  }

  /** And they keep their order. */
  lemma {:induction false} OthersInOrder(a: seq<string>, b: seq<string>)
    ensures Others(a + b) == Others(a) + Others(b)
  {
    if b == [] {
      assert a + b == a;
    } else {
      assert (a + b)[..|a + b| - 1] == a + b[..|b| - 1];
      OthersInOrder(a, b[..|b| - 1]);
    }
  }

  lemma {:induction false} JoinAppend(parts: seq<string>, last: string, sep: char)
    requires parts != []
    ensures Join(parts + [last], sep) == Join(parts, sep) + [sep] + last
  {
    if |parts| > 1 {
      JoinAppend(parts[1..], last, sep);
      assert (parts + [last])[1..] == parts[1..] + [last];
    }
  }

  /** Leaving options out makes the string shorter. */
  lemma {:induction false} OthersShorter(parts: seq<string>)
    ensures |Join(Others(parts), ',')| <= |Join(parts, ',')|
    ensures (exists p :: p in parts && !Kept(p)) ==> |Join(Others(parts), ',')| < |Join(parts, ',')|
  {
    if parts != [] {
      var (init, last) := (parts[..|parts| - 1], parts[|parts| - 1]);
      OthersShorter(init);
      assert parts == init + [last];
      if init != [] {
        JoinAppend(init, last, ',');
        if Kept(last) && Others(init) != [] {
          JoinAppend(Others(init), last, ',');
        }
      }
      forall p | p in parts && !Kept(p) ensures p in init || p == last {}
    }
  }

  /** The option string comes back unchanged, without the bind flag, if and only if it has neither of the
      two options. */
  lemma UnchangedIf(opt: string)
    ensures !AsksToBind(opt) && OptionsLeft(opt) == opt
       <==> "bind" !in Split(opt, ',') && "defaults" !in Split(opt, ',')
  {
    var parts := Split(opt, ',');
    SplitInverse(opt, ',');
    OthersAre(parts);
    OthersShorter(parts);
  }

  /** The string that is returned goes through unchanged: parsing is idempotent. */
  lemma ParseIdempotent(opt: string)
    ensures !AsksToBind(OptionsLeft(opt)) && OptionsLeft(OptionsLeft(opt)) == OptionsLeft(opt)
  {
    var others := Others(Split(opt, ','));
    OthersAre(Split(opt, ','));
    SplitInverse(opt, ',');
    if others != [] {
      JoinInverse(others, ',');
    } else {
      assert Split([], ',') == [[]];
    }
    UnchangedIf(OptionsLeft(opt));
  }

  function Decimal(n: nat): (digits: string)
    ensures digits != [] && forall c :: c in digits ==> '0' <= c <= '9'
  {
    if n < 10 then [Digit(n)] else Decimal(n / 10) + [Digit(n % 10)]
  }

  function Digit(n: nat): (c: char)
    requires n < 10
    ensures '0' <= c <= '9'
  {
    "0123456789"[n]
  }

  /** What digits stand for, the most significant first. */
  function FromDecimal(digits: string): int {
    if digits == "" then 0
    else 10 * FromDecimal(digits[..|digits| - 1]) + (digits[|digits| - 1] as int - '0' as int)
  }

  /** The digits of a number read back, and none of them is a leading zero. */
  lemma {:induction false} DecimalBack(n: nat)
    ensures FromDecimal(Decimal(n)) == n
    ensures n > 0 ==> Decimal(n)[0] != '0'
    ensures n == 0 ==> Decimal(n) == "0"
  {
    if n >= 10 {
      DecimalBack(n / 10);
      assert Decimal(n)[..|Decimal(n)| - 1] == Decimal(n / 10);
    } else {
      assert Decimal(n)[..0] == "";
    }
  }

  /** The options of the 9p mount. */
  function NinepOptions(port: nat): string {
    "version=9p2000.L,trans=tcp,port=" + Decimal(port)
  }

  /** They are three, and go through unchanged for every port. */
  lemma NinepOptionsPass(port: nat)
    ensures Split(NinepOptions(port), ',') == ["version=9p2000.L", "trans=tcp", "port=" + Decimal(port)]
    ensures !AsksToBind(NinepOptions(port)) && OptionsLeft(NinepOptions(port)) == NinepOptions(port)
  {
    var parts := ["version=9p2000.L", "trans=tcp", "port=" + Decimal(port)];
    var opt := NinepOptions(port);
    assert Join(parts[2..], ',') == parts[2];
    assert Join(parts[1..], ',') == "trans=tcp" + "," + parts[2];
    assert Join(parts, ',') == opt;
    assert parts[0][0] == 'v' && parts[1][0] == 't' && parts[2][0] == 'p';
    JoinInverse(parts, ',');
    UnchangedIf(opt);
  }

  // ------------------------------------------------------------------- the namespace

  datatype FsTab = FsTab(spec: string, file: string, vfstype: string, mntops: string, freq: int, passno: int)

  /** What a part of a namespace asks for: `target` or `target=source`. */
  datatype Bind = Bind(target: string, source: string)

  function BindOf(part: string): Option<Bind> {
    var fields := Split(part, '=');
    if |fields| > 2 then None else Some(Bind(fields[0], if |fields| == 2 then fields[1] else fields[0]))
  }

  /** A part without a '=' is bound to itself; with one, it is `target=source`; with more, it asks for
      nothing. */
  lemma BindOfMeans(target: string, source: string, more: string)
    requires '=' !in target && '=' !in source
    ensures BindOf(target) == Some(Bind(target, target))
    ensures BindOf(target + "=" + source) == Some(Bind(target, source))
    ensures BindOf(target + "=" + (source + "=" + more)) == None
  {
    SplitNone(target, '=');
    SplitNone(source, '=');
    SplitAfter(target, source, '=');
    SplitAfter(source, more, '=');
    SplitAfter(target, source + "=" + more, '=');
  }

  function MountPoint(tmpMnt: string): string {
    tmpMnt + "/" + "mnt9p"
  }

  function NinepTab(tmpMnt: string): FsTab {
    FsTab("", MountPoint(tmpMnt), "9p", "", 0, 0)
  }

  function BindTab(tmpMnt: string, b: Bind): FsTab {
    FsTab(MountPoint(tmpMnt) + b.source, b.target, "none", "defaults,bind", 0, 0)
  }

  function Targets(binds: seq<Bind>): set<string> {
    set b | b in binds :: b.target
  }

  /** What the parts ask for, each target the first time only. */
  function Binds(parts: seq<string>): seq<Bind> {
    if parts == [] then []
    else
      var binds := Binds(parts[..|parts| - 1]);
      match BindOf(parts[|parts| - 1])
      case Some(b) => if b.target in Targets(binds) then binds else binds + [b]
      case None => binds
  }

  function Tabs(tmpMnt: string, binds: seq<Bind>): seq<FsTab> {
    seq(|binds|, i requires 0 <= i < |binds| => BindTab(tmpMnt, binds[i]))
  }

  function Namespace(namespace: string, tmpMnt: string): seq<FsTab> {
    var binds := Binds(Split(namespace, ':'));
    if namespace == "" || binds == [] then [] else [NinepTab(tmpMnt)] + Tabs(tmpMnt, binds)
  }

  lemma MoreBinds(tmpMnt: string, parts: seq<string>, part: string)
    ensures var (binds, more) := (Binds(parts), Binds(parts + [part]));
      if BindOf(part).None? || BindOf(part).value.target in Targets(binds) then more == binds
      else
        && Targets(more) == Targets(binds) + {BindOf(part).value.target}
        && Tabs(tmpMnt, more) == Tabs(tmpMnt, binds) + [BindTab(tmpMnt, BindOf(part).value)]
  {
    hide BindOf, BindTab;
    assert (parts + [part])[..|parts|] == parts;
  }

  method ParseNamespace(namespace: string, tmpMnt: string) returns (result: seq<FsTab>)
    ensures result == Namespace(namespace, tmpMnt)
  {
    hide BindTab, Binds, Split, NinepTab, Targets;
    result := [];
    if namespace == "" {
      return;
    }
    result := result + [NinepTab(tmpMnt)];
    var targets: set<string> := {};
    var parts := Split(namespace, ':');
    NoBinds();
    var i := 0;
    while i < |parts|
      invariant 0 <= i <= |parts|
      invariant targets == Targets(Binds(parts[..i]))
      invariant result == [NinepTab(tmpMnt)] + Tabs(tmpMnt, Binds(parts[..i]))
    {
      var part := parts[i];
      MoreBinds(tmpMnt, parts[..i], part);
      assert parts[..i + 1] == parts[..i] + [part];
      i := i + 1;
      var fields := Split(part, '=');
      var target := fields[0];
      var source := if |fields| > 1 then fields[1] else target;
      if |fields| > 2 {
        continue;
      }
      if target in targets {
        continue;
      }
      targets := targets + {target};
      result := result + [BindTab(tmpMnt, Bind(target, source))];
    }
    assert parts[..i] == parts;
    if |result| == 1 {
      result := [];
    }
  }

  lemma NoBinds()
    ensures Binds([]) == [] && Targets([]) == {}
  {
  }

  /** `j` is the first of the parts that asks for the target. */
  predicate FirstFor(parts: seq<string>, j: nat, target: string) {
    && j < |parts| && BindOf(parts[j]).Some? && BindOf(parts[j]).value.target == target
    && forall k :: 0 <= k < j && BindOf(parts[k]).Some? ==> BindOf(parts[k]).value.target != target
  }

  lemma {:induction false} AllBound(parts: seq<string>)
    ensures forall k :: 0 <= k < |parts| && BindOf(parts[k]).Some? ==> BindOf(parts[k]).value.target in Targets(Binds(parts))
  {
    hide BindOf;
    if parts != [] {
      var (init, last) := (parts[..|parts| - 1], BindOf(parts[|parts| - 1]));
      AllBound(init);
      forall k | 0 <= k < |parts| && BindOf(parts[k]).Some? ensures BindOf(parts[k]).value.target in Targets(Binds(parts)) {
        if k < |parts| - 1 {
          assert init[k] == parts[k];
        } else if last.value.target !in Targets(Binds(init)) {
          assert last.value in Binds(parts);
        }
      }
    }
  }

  lemma NewTargetIsFirst(parts: seq<string>, b: Bind)
    requires parts != [] && BindOf(parts[|parts| - 1]) == Some(b)
    requires b.target !in Targets(Binds(parts[..|parts| - 1]))
    ensures FirstFor(parts, |parts| - 1, b.target)
  {
    hide BindOf, Binds;
    var init := parts[..|parts| - 1];
    AllBound(init);
    forall k | 0 <= k < |parts| - 1 && BindOf(parts[k]).Some? ensures BindOf(parts[k]).value.target != b.target {
      assert init[k] == parts[k];
    }
  }

  /** The binds are those of the parts that are the first for their target, in the order of the parts:
      `at[i]` is the part of the `i`-th bind. Every target that is asked for is bound (`AllBound`). */
  lemma {:induction false} BindsAreFirst(parts: seq<string>) returns (at: seq<nat>)
    ensures |at| == |Binds(parts)|
    ensures forall i :: 0 <= i < |at| ==> at[i] < |parts| && BindOf(parts[at[i]]) == Some(Binds(parts)[i])
    ensures forall i :: 0 <= i < |at| ==> FirstFor(parts, at[i], Binds(parts)[i].target)
    ensures forall i, j :: 0 <= i < j < |at| ==> at[i] < at[j]
  {
    hide BindOf, FirstFor;
    at := [];
    if parts != [] {
      var (init, last) := (parts[..|parts| - 1], BindOf(parts[|parts| - 1]));
      at := BindsAreFirst(init);
      forall i | 0 <= i < |at| ensures FirstFor(parts, at[i], Binds(init)[i].target) {
        StillFirst(init, parts[|parts| - 1], at[i], Binds(init)[i].target);
        assert init + [parts[|parts| - 1]] == parts;
      }
      if last.Some? && last.value.target !in Targets(Binds(init)) {
        NewTargetIsFirst(parts, last.value);
        at := at + [|parts| - 1];
      }
    }
  }

  lemma StillFirst(parts: seq<string>, part: string, j: nat, target: string)
    requires FirstFor(parts, j, target)
    ensures FirstFor(parts + [part], j, target)
  {
    hide BindOf;
    assert forall k :: 0 <= k < |parts| ==> (parts + [part])[k] == parts[k];
  }

  /** A namespace asks for no mounts if and only if it is empty or none of its parts is well formed. */
  lemma NoMounts(namespace: string, tmpMnt: string)
    ensures Namespace(namespace, tmpMnt) == []
       <==> namespace == "" || forall p :: p in Split(namespace, ':') ==> BindOf(p).None?
  {
    hide BindOf, Binds, Split;
    var parts := Split(namespace, ':');
    AllBound(parts);
    var at := BindsAreFirst(parts);
    if Binds(parts) != [] {
      assert BindOf(parts[at[0]]).Some?;
    }
  }

  /** No target is bound twice. */
  lemma TargetsDiffer(parts: seq<string>)
    ensures forall i, j :: 0 <= i < j < |Binds(parts)| ==> Binds(parts)[i].target != Binds(parts)[j].target
  {
    var at := BindsAreFirst(parts);
    forall i, j | 0 <= i < j < |Binds(parts)| ensures Binds(parts)[i].target != Binds(parts)[j].target {
      assert FirstFor(parts, at[j], Binds(parts)[j].target) && BindOf(parts[at[i]]) == Some(Binds(parts)[i]);
    }
  }

  // ------------------------------------------------------------------- rendering

  function RenderBind(b: Bind): string {
    b.target + "=" + b.source
  }

  function Rendered(binds: seq<Bind>): seq<string> {
    seq(|binds|, i requires 0 <= i < |binds| => RenderBind(binds[i]))
  }

  predicate Plain(s: string) {
    ':' !in s && '=' !in s
  }

  lemma RenderedBind(b: Bind)
    requires Plain(b.target) && Plain(b.source)
    ensures BindOf(RenderBind(b)) == Some(b) && ':' !in RenderBind(b)
  {
    SplitAfter(b.target, b.source, '=');
    SplitNone(b.source, '=');
  }

  lemma {:induction false} RenderedBinds(binds: seq<Bind>)
    requires forall b :: b in binds ==> Plain(b.target) && Plain(b.source)
    requires forall i, j :: 0 <= i < j < |binds| ==> binds[i].target != binds[j].target
    ensures Binds(Rendered(binds)) == binds
  {
    if binds != [] {
      var (init, last) := (binds[..|binds| - 1], binds[|binds| - 1]);
      RenderedBinds(init);
      RenderedBind(last);
      assert Rendered(binds)[..|binds| - 1] == Rendered(init);
    }
  }

  /** Binds with different targets, written out and parsed, come back as they were. */
  lemma NamespaceRoundTrip(binds: seq<Bind>, tmpMnt: string)
    requires binds != [] && forall b :: b in binds ==> Plain(b.target) && Plain(b.source)
    requires forall i, j :: 0 <= i < j < |binds| ==> binds[i].target != binds[j].target
    ensures var tabs := Namespace(Join(Rendered(binds), ':'), tmpMnt);
      && |tabs| == |binds| + 1 && tabs[0] == FsTab("", tmpMnt + "/mnt9p", "9p", "", 0, 0)
      && (forall i :: 0 <= i < |binds| ==>
            tabs[i + 1] == FsTab(tmpMnt + "/mnt9p" + binds[i].source, binds[i].target, "none", "defaults,bind", 0, 0))
  {
    MountPointIs(tmpMnt);
    hide MountPoint;
    var parts := Rendered(binds);
    forall p | p in parts ensures ':' !in p {
      var i :| 0 <= i < |parts| && p == parts[i];
      RenderedBind(binds[i]);
    }
    JoinInverse(parts, ':');
    RenderedBinds(binds);
    assert '=' in parts[0];
  }

  // ------------------------------------------------------------------- the server

  predicate IsNinepTab(tab: FsTab, tmpMnt: string) {
    tab.vfstype == "9p" && tab.file == MountPoint(tmpMnt)
  }

  function Pointed(tab: FsTab, port: nat): FsTab {
    tab.(spec := "127.0.0.1", mntops := NinepOptions(port))
  }

  /** The first 9p entry points at the forwarded port, and the rest is as it was. */
  function Rewritten(tabs: seq<FsTab>, tmpMnt: string, port: nat): seq<FsTab> {
    if tabs == [] then []
    else if IsNinepTab(tabs[0], tmpMnt) then [Pointed(tabs[0], port)] + tabs[1..]
    else [tabs[0]] + Rewritten(tabs[1..], tmpMnt, port)
  }

  lemma {:induction false} RewrittenMeans(tabs: seq<FsTab>, tmpMnt: string, port: nat, i: nat)
    requires i <= |tabs| && forall j :: 0 <= j < i ==> !IsNinepTab(tabs[j], tmpMnt)
    ensures i == |tabs| ==> Rewritten(tabs, tmpMnt, port) == tabs
    ensures i < |tabs| && IsNinepTab(tabs[i], tmpMnt) ==> Rewritten(tabs, tmpMnt, port) == tabs[i := Pointed(tabs[i], port)]
  {
    hide IsNinepTab, Pointed;
    if i > 0 {
      RewrittenMeans(tabs[1..], tmpMnt, port, i - 1);
    }
  }

  /** The first entry of type 9p at the 9p mount point is for the 9p file system at the port; it keeps its
      last two fields, and every other entry is as it was. */
  lemma FirstEntryIsRewritten(tabs: seq<FsTab>, tmpMnt: string, port: nat, i: nat)
    requires i < |tabs| && tabs[i].vfstype == "9p" && tabs[i].file == tmpMnt + "/mnt9p"
    requires forall j :: 0 <= j < i ==> tabs[j].vfstype != "9p" || tabs[j].file != tmpMnt + "/mnt9p"
    ensures Rewritten(tabs, tmpMnt, port)
         == tabs[i := FsTab("127.0.0.1", tmpMnt + "/mnt9p", "9p",
                            "version=9p2000.L,trans=tcp,port=" + Decimal(port), tabs[i].freq, tabs[i].passno)]
  {
    MountPointIs(tmpMnt);
    hide MountPoint;
    RewrittenMeans(tabs, tmpMnt, port, i);
    hide Rewritten;
  }

  lemma MountPointIs(tmpMnt: string)
    ensures MountPoint(tmpMnt) == tmpMnt + "/mnt9p"
  {
    assert tmpMnt + "/" + "mnt9p" == tmpMnt + ("/" + "mnt9p");
  }

  method RewriteTabs(tabs: array<FsTab>, tmpMnt: string, port: nat)
    modifies tabs
    ensures tabs[..] == Rewritten(old(tabs[..]), tmpMnt, port)
  {
    hide IsNinepTab, Pointed, Rewritten;
    ghost var was := tabs[..];
    var i := 0;
    while i < tabs.Length
      invariant 0 <= i <= tabs.Length && tabs[..] == was
      invariant forall j :: 0 <= j < i ==> !IsNinepTab(was[j], tmpMnt)
    {
      if IsNinepTab(tabs[i], tmpMnt) {
        RewrittenMeans(was, tmpMnt, port, i);
        tabs[i] := Pointed(tabs[i], port);
        return;
      }
      i := i + 1;
    }
    RewrittenMeans(was, tmpMnt, port, i);
  }

  // ------------------------------------------------------------------- the mounts

  /** A call of `mount`. */
  datatype Mount = Mount(source: Option<string>, target: string, fstype: Option<string>, bind: bool, data: Option<string>)

  function Present(s: string): Option<string> {
    if s == "" then None else Some(s)
  }

  function MountOf(tab: FsTab): Mount {
    Mount(Present(tab.spec), tab.file, Present(tab.vfstype), AsksToBind(tab.mntops), Present(OptionsLeft(tab.mntops)))
  }

  lemma BindOptions()
    ensures AsksToBind("defaults,bind") && OptionsLeft("defaults,bind") == ""
  {
    var parts := ["defaults", "bind"];
    assert Join(parts[1..], ',') == "bind" && Join(parts, ',') == "defaults,bind";
    JoinInverse(parts, ',');
    assert parts[1] == "bind";
    assert parts[..1] == ["defaults"] && parts[..1][..0] == [];
    assert Others(parts[..1]) == [];
  }

  /** The client's entries for a namespace, and any others behind them, are mounted like this: first the
      9p file system from the forwarded port, with its options as the server wrote them, and nothing
      else is pointed there; then each bind, from below the 9p mount point, to a target of its own. */
  lemma NinepIsMountedFirst(namespace: string, tmpMnt: string, more: seq<FsTab>, port: nat)
    requires Namespace(namespace, tmpMnt) != []
    ensures var (tabs, binds) := (Namespace(namespace, tmpMnt), Binds(Split(namespace, ':')));
            var after := Rewritten(tabs + more, tmpMnt, port);
      && after[1..] == tabs[1..] + more && |tabs| == |binds| + 1
      && MountOf(after[0])
           == Mount(Some("127.0.0.1"), tmpMnt + "/mnt9p", Some("9p"), false,
                    Some("version=9p2000.L,trans=tcp,port=" + Decimal(port)))
      && (forall i :: 1 <= i < |tabs| ==>
            MountOf(after[i])
              == Mount(Some(tmpMnt + "/mnt9p" + binds[i - 1].source), binds[i - 1].target, Some("none"), true, None))
      && (forall i, j :: 1 <= i < j < |tabs| ==> after[i].file != after[j].file)
  {
    MountPointIs(tmpMnt);
    OptionsAre(port);
    hide AsksToBind, OptionsLeft, Binds, NinepOptions, MountOf, MountPoint, Rewritten, Split;
    var (tabs, binds) := (Namespace(namespace, tmpMnt), Binds(Split(namespace, ':')));
    var after := Rewritten(tabs + more, tmpMnt, port);
    FirstIsRewritten(Tabs(tmpMnt, binds) + more, tmpMnt, port);
    assert tabs + more == [NinepTab(tmpMnt)] + (Tabs(tmpMnt, binds) + more);
    NinepMount(tmpMnt, port);
    TargetsDiffer(Split(namespace, ':'));
    forall i | 1 <= i < |tabs| ensures after[i] == BindTab(tmpMnt, binds[i - 1])
      ensures MountOf(after[i])
           == Mount(Some(MountPoint(tmpMnt) + binds[i - 1].source), binds[i - 1].target, Some("none"), true, None)
    {
      BindMount(tmpMnt, binds[i - 1]);
    }
  }

  lemma OptionsAre(port: nat)
    ensures NinepOptions(port) == "version=9p2000.L,trans=tcp,port=" + Decimal(port)
  {
  }

  lemma FirstIsRewritten(tabs: seq<FsTab>, tmpMnt: string, port: nat)
    ensures Rewritten([NinepTab(tmpMnt)] + tabs, tmpMnt, port) == [Pointed(NinepTab(tmpMnt), port)] + tabs
  {
    hide MountPoint, NinepOptions;
    assert ([NinepTab(tmpMnt)] + tabs)[1..] == tabs;
  }

  lemma NinepMount(tmpMnt: string, port: nat)
    ensures MountOf(Pointed(NinepTab(tmpMnt), port))
         == Mount(Some("127.0.0.1"), MountPoint(tmpMnt), Some("9p"), false, Some(NinepOptions(port)))
  {
    NinepOptionsPass(port);
    hide AsksToBind, OptionsLeft, MountPoint;
  }

  lemma BindMount(tmpMnt: string, b: Bind)
    ensures MountOf(BindTab(tmpMnt, b)) == Mount(Some(MountPoint(tmpMnt) + b.source), b.target, Some("none"), true, None)
  {
    BindOptions();
    hide AsksToBind, OptionsLeft;
  }
}
