/**
 * provision/apt.py: the apt adapter. The module flag `CACHE_UPDATED` makes
 * the package-cache refresh happen at most once per process; `install`
 * resolves the package list and issues one `apt install`; `update` runs the
 * fixed upgrade sequence.
 */
module Apt {
  import opened Wrappers
  import opened Text
  import opened Host

  const LIST_UPGRADABLE: seq<string> := ["apt", "list", "--upgradable"]
  const FULL_UPGRADE: seq<string> := ["sudo", "apt", "full-upgrade", "-y"]
  const INSTALL_PREFIX: seq<string> := ["sudo", "apt", "install", "-y"]
  const AUTOREMOVE: seq<string> := ["sudo", "apt", "autoremove"]
  const PURGE: seq<string> := ["sudo", "apt", "purge"]
  const PKG_FILE := "~/.config/shell/provision/apt_package"

  /**
   * `_update_cache()`: while the flag is clear, launch the refresh and set
   * the flag; once set, do nothing. A refresh that cannot be launched raises
   * before the flag is set.
   */
  function UpdateCachePlan(e: Env, w: World): (r: (World, Option<Exc>))
    ensures r.1.None? <==> r.0.cacheUpdated
    ensures w.cacheUpdated ==> r == (w, None)
    ensures !w.cacheUpdated ==> r.0.log == w.log + [Exec(REFRESH)] && r.0.stdin == w.stdin
    ensures RefreshInv(w) ==> RefreshInv(r.0)
  {
    if w.cacheUpdated then (w, None)
    else
      var (w1, reply) := RunW(e, w, REFRESH);
      if reply.Missing? then (w1, Some(FileNotFound))
      else (w1.(cacheUpdated := true), None)
  }

  /** Once the refresh has run, refreshing again changes nothing. */
  lemma UpdateCacheIdempotent(e: Env, w: World)
    requires UpdateCachePlan(e, w).1.None?
    ensures var w1 := UpdateCachePlan(e, w).0; UpdateCachePlan(e, w1) == (w1, None)
  {
  }

  /** Refresh, then run `cmd` and return its exit status (`_list_upgradable`, `_upgrade`). */
  function RefreshThenRun(e: Env, w: World, cmd: seq<string>): (r: (World, Outcome))
    ensures cmd != REFRESH ==> r.0.refreshes == UpdateCachePlan(e, w).0.refreshes && r.0.cacheUpdated == UpdateCachePlan(e, w).0.cacheUpdated
    ensures RefreshInv(w) && cmd != REFRESH ==> RefreshInv(r.0)
    ensures r.1.Returned? <==> UpdateCachePlan(e, w).1.None? && e.answer(|UpdateCachePlan(e, w).0.log|).Exited?
    ensures r.1.Returned? ==>
      (r.0.log == UpdateCachePlan(e, w).0.log + [Exec(cmd)] && r.1.code == e.answer(|r.0.log| - 1).code)
  {
    var (w1, exc) := UpdateCachePlan(e, w);
    if exc.Some? then (w1, Raised(exc.value))
    else
      var (w2, reply) := RunW(e, w1, cmd);
      if reply.Missing? then (w2, Raised(FileNotFound)) else (w2, Returned(reply.code))
  }

  function ListUpgradablePlan(e: Env, w: World): (World, Outcome) { RefreshThenRun(e, w, LIST_UPGRADABLE) }

  function UpgradePlan(e: Env, w: World): (World, Outcome) { RefreshThenRun(e, w, FULL_UPGRADE) }

  /** The one install command: `sudo apt install -y` and the packages; only a launch failure makes it return 1. */
  function LaunchInstall(e: Env, w: World, packages: seq<string>): (World, Outcome) {
    var (w2, reply) := RunW(e, w, INSTALL_PREFIX + packages);
    (w2, if reply.Missing? then Returned(1) else Returned(0))
  }

  /** `install(args, pkgs)`. */
  function InstallPlan(e: Env, w: World, ns: Namespace, pkgs: seq<string>): (r: (World, Outcome))
    ensures r.0.stdin == w.stdin && r.0.dirs == w.dirs
  {
    var (w1, exc) := UpdateCachePlan(e, w);
    if exc.Some? then (w1, Raised(exc.value))
    else if !Which(e, "apt-get") then (w1, Returned(1))
    else match ns.packages
      case None => (w1, Raised(AttributeMissing("packages")))
      case Some(given) =>
        var packages := pkgs + given;
        if |packages| == 0 then
          match ReadFile(e, PKG_FILE)
          case None => (w1, Returned(1))
          case Some(text) => LaunchInstall(e, w1, SplitLines(text))
        else LaunchInstall(e, w1, packages)
  }

  /** The packages `install` passes to apt: the routine's, then the command line's, else the lines of the package file. */
  function Resolved(e: Env, given: seq<string>, pkgs: seq<string>): Option<seq<string>> {
    if |pkgs + given| > 0 then Some(pkgs + given)
    else match ReadFile(e, PKG_FILE)
      case None => None
      case Some(text) => Some(SplitLines(text))
  }

  /**
   * What `install` issues after the refresh: nothing when the refresh,
   * `apt-get` or the package list is missing, and otherwise exactly one
   * command, `sudo apt install -y` followed by the resolved packages in
   * order. It returns 0 whatever apt's exit status, and 1 only when apt-get
   * or the package file is missing or apt cannot be launched.
   */
  lemma InstallIssues(e: Env, w: World, ns: Namespace, pkgs: seq<string>)
    requires UpdateCachePlan(e, w).1.None?
    ensures var w1 := UpdateCachePlan(e, w).0;
      var r := InstallPlan(e, w, ns, pkgs);
      if !Which(e, "apt-get") then r == (w1, Returned(1))
      else if ns.packages.None? then r == (w1, Raised(AttributeMissing("packages")))
      else match Resolved(e, ns.packages.value, pkgs)
        case None => r == (w1, Returned(1))
        case Some(packages) =>
          r.0.log == w1.log + [Exec(INSTALL_PREFIX + packages)]
          && r.1 == if e.answer(|w1.log|).Missing? then Returned(1) else Returned(0)
  {
  }

  /** The refresh comes before the check for apt-get: without apt-get the refresh is the only effect. */
  lemma InstallWithoutAptGet(e: Env, w: World, ns: Namespace, pkgs: seq<string>)
    requires !Which(e, "apt-get")
    ensures var r := InstallPlan(e, w, ns, pkgs);
      r.0 == UpdateCachePlan(e, w).0 && (r.1 == Returned(1) || r.1 == Raised(FileNotFound))
      && (!w.cacheUpdated ==> r.0.log == w.log + [Exec(REFRESH)])
  {
  }

  /** Reading back a package file written one package per line installs exactly those packages, in order. */
  lemma {:induction false} PackageFileRoundTrip(e: Env, lines: seq<string>)
    requires forall l :: l in lines ==> NoLineBoundary(l)
    requires ReadFile(e, PKG_FILE) == Some(JoinLines(lines))
    ensures Resolved(e, [], []) == Some(lines)
  {
    SplitJoinLines(lines);
  }

  predicate IsInstallCommand(ev: Event) { ev.Exec? && |ev.argv| >= 4 && ev.argv[..4] == INSTALL_PREFIX }

  /**
   * `install` never returns a status other than 0 or 1, keeps the refresh
   * invariant, and adds to the log at most the refresh and one install command.
   */
  lemma InstallStatus(e: Env, w: World, ns: Namespace, pkgs: seq<string>)
    ensures var w1 := UpdateCachePlan(e, w).0;
      var r := InstallPlan(e, w, ns, pkgs);
      (RefreshInv(w) ==> RefreshInv(r.0))
      && (r.1.Returned? ==> r.1.code == 0 || r.1.code == 1)
      && |w1.log| <= |r.0.log| <= |w1.log| + 1 && r.0.log[..|w1.log|] == w1.log && r.0.cacheUpdated == w1.cacheUpdated
      && forall k :: |w1.log| <= k < |r.0.log| ==> IsInstallCommand(r.0.log[k])
  {
    var (w1, exc) := UpdateCachePlan(e, w);
    var r := InstallPlan(e, w, ns, pkgs);
    if exc.None? && r.0 != w1 {
      var argv := r.0.log[|w1.log|].argv;
      assert argv[..4] == INSTALL_PREFIX;
      assert argv[2] != REFRESH[2];
    }
  }

  /**
   * `update(args)`: refresh, full upgrade, install, autoremove (with
   * `check=True`), purge; the purge's exit status is the result.
   */
  function UpdatePlan(e: Env, w: World, ns: Namespace): (r: (World, Outcome))
    ensures r.0.stdin == w.stdin
  {
    var (w1, exc) := UpdateCachePlan(e, w);
    if exc.Some? then (w1, Raised(exc.value))
    else
      var (w2, o2) := UpgradePlan(e, w1);
      if o2.Raised? then (w2, o2)
      else
        var (w3, o3) := InstallPlan(e, w2, ns, []);
        if o3.Raised? then (w3, o3)
        else CleanupPlan(e, w3)
  }

  /** The end of `update`: `sudo apt autoremove` with `check=True`, then `sudo apt purge` and its exit status. */
  function CleanupPlan(e: Env, w: World): (r: (World, Outcome))
    ensures RefreshInv(w) ==> RefreshInv(r.0)
    ensures r.0.stdin == w.stdin
    ensures r.1.Returned? ==>
      (r.0.log == w.log + [Exec(AUTOREMOVE), Exec(PURGE)] && e.answer(|w.log| + 1).Exited? && r.1.code == e.answer(|w.log| + 1).code)
  {
    var (w4, r4) := RunW(e, w, AUTOREMOVE);
    assert AUTOREMOVE[2] != REFRESH[2] && PURGE[2] != REFRESH[2];
    if r4.Missing? then (w4, Raised(FileNotFound))
    else if r4.code != 0 then (w4, Raised(CalledProcess(r4.code)))
    else
      var (w5, r5) := RunW(e, w4, PURGE);
      if r5.Missing? then (w5, Raised(FileNotFound)) else (w5, Returned(r5.code))
  }

  /** A failing autoremove raises `CalledProcessError`, and the purge never runs. */
  lemma UpdateStopsOnAutoremoveFailure(e: Env, w: World, ns: Namespace)
    requires var (w1, exc) := UpdateCachePlan(e, w);
      exc.None? && UpgradePlan(e, w1).1.Returned? && InstallPlan(e, UpgradePlan(e, w1).0, ns, []).1.Returned?
    requires var w3 := InstallPlan(e, UpgradePlan(e, UpdateCachePlan(e, w).0).0, ns, []).0;
      e.answer(|w3.log|).Exited? && e.answer(|w3.log|).code != 0
    ensures var r := UpdatePlan(e, w, ns);
      r.1.Raised? && r.1.exc.CalledProcess? && r.0.log[|r.0.log| - 1] == Exec(AUTOREMOVE)
  {
  }

  /** `update` keeps the refresh invariant, so the process never launches a second refresh. */
  lemma UpdateRefreshesOnce(e: Env, w: World, ns: Namespace)
    requires RefreshInv(w)
    ensures var r := UpdatePlan(e, w, ns); RefreshInv(r.0) && r.0.refreshes <= 1
  {
    var r := UpdatePlan(e, w, ns);
    var (w1, exc) := UpdateCachePlan(e, w);
    assert RefreshInv(w1);
    if exc.None? {
      assert FULL_UPGRADE[2] != REFRESH[2];
      var (w2, o2) := UpgradePlan(e, w1);
      assert RefreshInv(w2);
      if o2.Returned? {
        var (w3, o3) := InstallPlan(e, w2, ns, []);
        InstallStatus(e, w2, ns, []);
        assert RefreshInv(w3);
        if o3.Returned? {
          assert r == CleanupPlan(e, w3);
        } else {
          assert r.0 == w3;
        }
      } else {
        assert r.0 == w2;
      }
    }
  }

  /**
   * A completed `update` issued, after the refresh it needed, the full
   * upgrade, at most one install command, the autoremove and the purge, in
   * that order, and returns the purge's exit status.
   */
  lemma UpdateSequence(e: Env, w: World, ns: Namespace) returns (mid: seq<Event>)
    ensures var r := UpdatePlan(e, w, ns);
      var pre := if w.cacheUpdated then [] else [Exec(REFRESH)];
      r.1.Returned? ==>
        |mid| <= 1 && (forall ev :: ev in mid ==> IsInstallCommand(ev))
        && r.0.log == w.log + pre + [Exec(FULL_UPGRADE)] + mid + [Exec(AUTOREMOVE), Exec(PURGE)]
        && e.answer(|w.log| + |pre| + |mid| + 2).Exited?
        && r.1.code == e.answer(|w.log| + |pre| + |mid| + 2).code
  {
    mid := [];
    var r := UpdatePlan(e, w, ns);
    var (w1, exc) := UpdateCachePlan(e, w);
    if r.1.Returned? {
      var pre := if w.cacheUpdated then [] else [Exec(REFRESH)];
      assert w1.log == w.log + pre;
      assert UpdateCachePlan(e, w1) == (w1, None);
      var (w2, o2) := UpgradePlan(e, w1);
      assert w2.log == w1.log + [Exec(FULL_UPGRADE)];
      var (w3, o3) := InstallPlan(e, w2, ns, []);
      InstallStatus(e, w2, ns, []);
      assert UpdateCachePlan(e, w2) == (w2, None);
      mid := InstallSuffix(w2.log, w3.log);
      assert r == CleanupPlan(e, w3);
      var log := r.0.log;
      assert log == w3.log + [Exec(AUTOREMOVE), Exec(PURGE)];
      assert log == w.log + pre + [Exec(FULL_UPGRADE)] + mid + [Exec(AUTOREMOVE), Exec(PURGE)];
      assert |w3.log| + 1 == |w.log| + |pre| + |mid| + 2;
    }
  }

  /** What `install` adds to a log, as the list of its events. */
  lemma InstallSuffix(a: seq<Event>, b: seq<Event>) returns (mid: seq<Event>)
    requires |a| <= |b| <= |a| + 1 && b[..|a|] == a
    requires forall k :: |a| <= k < |b| ==> IsInstallCommand(b[k])
    ensures b == a + mid && |mid| <= 1 && forall ev :: ev in mid ==> IsInstallCommand(ev)
  {
    mid := b[|a|..];
    assert b == a + mid;
    if mid != [] {
      assert mid == [b[|a|]];
    }
  }

  // ---------------------------------------------------------------- the module's functions as effects on the host

  method UpdateCache(h: Host) returns (exc: Option<Exc>)
    modifies h
    ensures (h.State(), exc) == UpdateCachePlan(h.env, old(h.State()))
  {
    exc := None;
    if !h.cacheUpdated {
      var reply := h.Run(REFRESH);
      if reply.Missing? {
        return Some(FileNotFound);
      }
      h.SetCacheUpdated();
    }
  }

  method RefreshAndRun(h: Host, cmd: seq<string>) returns (o: Outcome)
    modifies h
    ensures (h.State(), o) == RefreshThenRun(h.env, old(h.State()), cmd)
  {
    var exc := UpdateCache(h);
    if exc.Some? {
      return Raised(exc.value);
    }
    var reply := h.Run(cmd);
    if reply.Missing? {
      return Raised(FileNotFound);
    }
    return Returned(reply.code);
  }

  /** `_list_upgradable(args)` */
  method ListUpgradable(h: Host) returns (o: Outcome)
    modifies h
    ensures (h.State(), o) == ListUpgradablePlan(h.env, old(h.State()))
  {
    o := RefreshAndRun(h, LIST_UPGRADABLE);
  }

  /** `_upgrade(args)` */
  method Upgrade(h: Host) returns (o: Outcome)
    modifies h
    ensures (h.State(), o) == UpgradePlan(h.env, old(h.State()))
  {
    o := RefreshAndRun(h, FULL_UPGRADE);
  }

  /** `install(args, pkgs)` */
  method Install(h: Host, ns: Namespace, pkgs: seq<string>) returns (o: Outcome)
    modifies h
    ensures (h.State(), o) == InstallPlan(h.env, old(h.State()), ns, pkgs)
  {
    var exc := UpdateCache(h);
    if exc.Some? {
      return Raised(exc.value);
    }
    if !Which(h.env, "apt-get") {
      return Returned(1);
    }
    if ns.packages.None? {
      return Raised(AttributeMissing("packages"));
    }
    var packages := pkgs + ns.packages.value;
    if |packages| == 0 {
      var text := ReadFile(h.env, PKG_FILE);
      if text.None? {
        return Returned(1);
      }
      packages := SplitLines(text.value);
    }
    var reply := h.Run(INSTALL_PREFIX + packages);
    if reply.Missing? {
      return Returned(1);
    }
    return Returned(0);
  }

  /** `update(args)` */
  method Update(h: Host, ns: Namespace) returns (o: Outcome)
    modifies h
    ensures (h.State(), o) == UpdatePlan(h.env, old(h.State()), ns)
  {
    var exc := UpdateCache(h);
    if exc.Some? {
      return Raised(exc.value);
    }
    o := Upgrade(h);
    if o.Raised? {
      return;
    }
    o := Install(h, ns, []);
    if o.Raised? {
      return;
    }
    var reply := h.Run(AUTOREMOVE);
    if reply.Missing? {
      return Raised(FileNotFound);
    } else if reply.code != 0 {
      return Raised(CalledProcess(reply.code));
    }
    reply := h.Run(PURGE);
    if reply.Missing? {
      return Raised(FileNotFound);
    }
    return Returned(reply.code);
  }
}
