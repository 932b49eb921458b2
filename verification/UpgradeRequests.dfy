/** What `POST /upgrades` lets through (`upgradeInit` and the three functions below it in
    modules/runtime/upgrade.go), and which plugin goes with which provider
    (modules/runtime/cc_octo.go). */
module UpgradeRequests {
  import opened Wrappers
  import opened VersionGates
  import opened Runtimes
  import opened UpgradeTasks
  import S = TtlStores
  import UpgradeRuns
  import V = Versions

  // ----- plugins -----

  function ExpectedPluginComponent(provider: string): Option<string> {
    if provider == "openclaw" then Some(PLUGIN)
    else if provider == "claude" then Some(CC_OCTO)
    else None
  }

  predicate ValidPluginForProvider(component: string, provider: string) {
    ExpectedPluginComponent(provider) == Some(component)
  }

  /** Every provider carries at most one plugin and every plugin has exactly one provider. */
  lemma PluginsPairUp(component: string)
    ensures IsPlugin(component) <==> exists provider :: ValidPluginForProvider(component, provider)
    ensures forall p, q | ValidPluginForProvider(component, p) && ValidPluginForProvider(component, q) :: p == q
    ensures ValidPluginForProvider("octo", "openclaw") && ValidPluginForProvider("cc-octo", "claude")
  {
    assert PLUGIN[0] != CC_OCTO[0];
    assert ValidPluginForProvider(PLUGIN, "openclaw") && ValidPluginForProvider(CC_OCTO, "claude");
  }

  // ----- requests -----

  datatype Request = Request(space: string, daemon: string, component: string, runtimeId: int,
                             gatewayUrl: string, apiKey: string, model: string)

  /** What the tables and the environment say: the runtimes with the devices that they are
      linked to (0 for none) and the plugin lists in their metadata, the daemon version
      that each device reports, and the published versions. */
  datatype Known = Known(rows: Rows, devices: map<int, int>, plugins: map<int, seq<Component>>,
                         reported: map<int, string>, latest: map<string, string>, active: set<string>,
                         gatewayAllowed: bool)
  {
    function Latest(component: string): string {
      if component in latest then latest[component] else ""
    }

    function Installed(runtimeId: int, component: string): string {
      if runtimeId in plugins then FirstVersion(plugins[runtimeId], component) else ""
    }

    function DeviceOf(runtimeId: int): int {
      if runtimeId in devices then devices[runtimeId] else 0
    }

    /** `queryDaemonReportedVersion`. */
    function DaemonVersionOn(device: int): string {
      if device > 0 && device in reported then reported[device] else ""
    }
  }

  datatype Plan = Plan(task: Task, secret: Option<S.Secret>)

  datatype Outcome = Planned(plan: Plan) | Malformed | NotOwned | Refused

  function Component(req: Request): string {
    if req.component == "" then DAEMON else req.component
  }

  /** The runtime named by the request, if it is one of the daemon's. */
  predicate OnDaemon(k: Known, login: string, req: Request) {
    && req.runtimeId != 0 && req.runtimeId in k.rows
    && OfDaemon(k.rows[req.runtimeId], req.space, req.daemon, login)
  }

  predicate SecretGiven(k: Known, req: Request) {
    req.gatewayUrl != "" && req.apiKey != "" && k.gatewayAllowed
  }

  predicate OfRequest(k: Known, login: string, req: Request, id: int) {
    id in k.rows && OfDaemon(k.rows[id], req.space, req.daemon, login)
  }

  /** The row that stands for the daemon: one with the greatest device id, so a row linked
      to a device before one that is not. */
  predicate Pinned(k: Known, login: string, req: Request, id: int) {
    OfRequest(k, login, req, id) && forall j | j in k.rows && OfRequest(k, login, req, j) ::
        k.DeviceOf(j) <= k.DeviceOf(id)
  }

  /** What the pinned row's device reports; several rows with the greatest device id share it. */
  ghost function ReportedVersion(k: Known, login: string, req: Request): string {
    if id: int :| Pinned(k, login, req, id) then k.DaemonVersionOn(k.DeviceOf(id)) else ""
  }

  /** The version that the task starts from. */
  ghost function FromVersion(k: Known, login: string, req: Request): string {
    if Component(req) == DAEMON then ReportedVersion(k, login, req)
    else if IsPlugin(Component(req)) then k.Installed(req.runtimeId, Component(req))
    else if req.runtimeId in k.rows then k.rows[req.runtimeId].version
    else ""
  }

  ghost predicate GateAccepts(component: string, from: string, latest: string) {
    if component == DAEMON then DaemonGateAccepts(from, latest)
    else if IsPlugin(component) then PluginGateAccepts(from, latest)
    else ProviderGateAccepts(from, latest)
  }

  /** The request makes sense before any version is compared. */
  ghost predicate InOrder(k: Known, login: string, req: Request) {
    var component, from := Component(req), FromVersion(k, login, req);
    && k.Latest(component) != ""
    && (component == DAEMON ||
        if IsPlugin(component) then
          && OnDaemon(k, login, req) && ValidPluginForProvider(component, k.rows[req.runtimeId].route.kind)
          && (from == "" && component == CC_OCTO ==> SecretGiven(k, req))
        else
          component in k.active && OnDaemon(k, login, req) && k.rows[req.runtimeId].route.kind == component
              && from != "")
  }

  /** Who passes, component by component. */
  ghost predicate Accepted(k: Known, login: string, req: Request) {
    InOrder(k, login, req) && GateAccepts(Component(req), FromVersion(k, login, req), k.Latest(Component(req)))
  }

  /** The request names a runtime that is not one of the caller's on that daemon. */
  predicate NamesForeignRuntime(k: Known, login: string, req: Request) {
    && Component(req) != DAEMON && (IsPlugin(Component(req)) || Component(req) in k.active)
    && req.runtimeId != 0 && !OnDaemon(k, login, req)
  }

  function NewTask(login: string, req: Request, runtimeId: int, from: string, latest: string): Task {
    Task(Key(req.space, req.daemon, login), Component(req), from, latest, runtimeId, Pending, "", 0, 0)
  }

  /** What a plan must look like. */
  ghost predicate GoodPlan(k: Known, login: string, req: Request, plan: Plan) {
    && UpgradeRuns.Proper(plan.task, plan.secret)
    && plan.task == NewTask(login, req, if Component(req) == DAEMON then 0 else req.runtimeId,
                            FromVersion(k, login, req), k.Latest(Component(req)))
    && (plan.secret.Some? ==>
          plan.secret == Some(S.Secret(req.gatewayUrl, req.apiKey, req.model)) && SecretGiven(k, req))
  }

  method UpgradeInit(k: Known, login: string, spaceMatches: bool, req: Request) returns (o: Outcome)
    ensures o.Planned? <==>
              && req.daemon != "" && req.space != "" && spaceMatches
              && (exists id :: id in k.rows && OfRequest(k, login, req, id) && k.rows[id].status == ONLINE)
              && Accepted(k, login, req)
    ensures !o.Planned? ==>
              o == if req.daemon == "" || req.space == "" then Malformed
                   else if !spaceMatches || (forall id | id in k.rows :: !OfRequest(k, login, req, id)) then NotOwned
                   else if forall id | id in k.rows && OfRequest(k, login, req, id) ::
                       k.rows[id].status != ONLINE then Refused
                   else if NamesForeignRuntime(k, login, req) then NotOwned
                   else if InOrder(k, login, req) then Refused
                   else Malformed
    ensures o.Planned? ==> GoodPlan(k, login, req, o.plan)
    ensures o.Planned? ==>
              && exists id :: id in k.rows && k.rows[id].status == "online" && k.rows[id].route.space == req.space
                  && k.rows[id].route.daemon == req.daemon && k.rows[id].route.owner == login
    ensures o.Planned? ==>
              var t, secret := o.plan.task, o.plan.secret;
              && t.key == Key(req.space, req.daemon, login) && t.component == Component(req)
              && t.toVersion == k.Latest(t.component) && t.toVersion != "" && t.fromVersion != t.toVersion
              && (t.component != "octo-daemon" ==>
                    && t.runtimeId == req.runtimeId && req.runtimeId in k.rows
                    && k.rows[req.runtimeId].route.(kind := "") == Route(req.space, req.daemon, "", login))
              && (secret.Some? <==> t.component == "cc-octo" && t.fromVersion == "")
              && (secret.Some? ==>
                    && secret.value == S.Secret(req.gatewayUrl, req.apiKey, req.model)
                    && req.gatewayUrl != "" && req.apiKey != "" && k.gatewayAllowed)
  {
    forall plan | Accepted(k, login, req) && GoodPlan(k, login, req, plan) {
      PlanIsOwn(k, login, req, plan);
    }
    hide Accepted, InOrder, NamesForeignRuntime, GoodPlan;
    if req.daemon == "" || req.space == "" {
      return Malformed;
    }
    if !spaceMatches {
      return NotOwned;
    }
    var mine := set id | id in k.rows && OfRequest(k, login, req, id);
    assert forall id | id in k.rows && OfRequest(k, login, req, id) :: id in mine;
    if mine == {} {
      return NotOwned;
    }
    ghost var top := Greatest(mine, id => k.DeviceOf(id));
    assert forall j | j in mine :: k.DeviceOf(j) <= k.DeviceOf(top);
    var daemon: int :| daemon in mine && forall j | j in mine :: k.DeviceOf(j) <= k.DeviceOf(daemon);
    var onlineCount := |Online(k.rows, mine)|;
    OnlineIsCounted(k.rows, mine);
    if onlineCount == 0 {
      return Refused;
    }
    o := CreateTask(k, login, req, daemon);
  }

  /** The branch on the component. */
  method CreateTask(k: Known, login: string, req: Request, daemon: int) returns (o: Outcome)
    requires Pinned(k, login, req, daemon)
    ensures o.Planned? <==> Accepted(k, login, req)
    ensures !o.Planned? ==>
              o == if NamesForeignRuntime(k, login, req) then NotOwned else if InOrder(k, login, req) then Refused
                  else Malformed
    ensures o.Planned? ==> GoodPlan(k, login, req, o.plan)
  {
    hide ProviderGateAccepts, PluginGateAccepts, DaemonGateAccepts;
    hide Accepted, InOrder, NamesForeignRuntime, FromVersion, Pinned, SecretGiven;
    var component := req.component;
    if component == "" {
      component := DAEMON;
    }
    DaemonIsNoPlugin();
    if component == DAEMON {
      DaemonRequest(k, login, req, daemon);
      o := CreateDaemonUpgradeTask(k, login, req, k.DeviceOf(daemon));
    } else if IsPlugin(component) {
      o := CreatePluginUpgradeTask(k, login, req, component);
    } else if component in k.active {
      o := CreateComponentUpgradeTask(k, login, req, component);
    } else {
      UnknownComponent(k, login, req);
      o := Malformed;
    }
  }

  lemma DaemonIsNoPlugin()
    ensures !IsPlugin(DAEMON)
  {
    assert |PLUGIN| != |DAEMON| && |CC_OCTO| != |DAEMON|;
  }

  lemma DaemonRequest(k: Known, login: string, req: Request, daemon: int)
    requires Component(req) == DAEMON && Pinned(k, login, req, daemon)
    ensures FromVersion(k, login, req) == k.DaemonVersionOn(k.DeviceOf(daemon)) && !NamesForeignRuntime(k, login, req)
    ensures InOrder(k, login, req) <==> k.Latest(DAEMON) != ""
    ensures Accepted(k, login, req) <==> DaemonGateAccepts(FromVersion(k, login, req), k.Latest(DAEMON))
  {
    PinnedAgree(k, login, req, daemon);
  }

  lemma UnknownComponent(k: Known, login: string, req: Request)
    requires var c := Component(req); c != DAEMON && !IsPlugin(c) && c !in k.active
    ensures !InOrder(k, login, req) && !Accepted(k, login, req) && !NamesForeignRuntime(k, login, req)
  {
  }

  lemma {:induction false} Greatest<T(!new)>(ids: set<T>, f: T -> int) returns (top: T)
    requires ids != {}
    ensures top in ids && forall j | j in ids :: f(j) <= f(top)
  {
    top :| top in ids;
    var left := ids - {top};
    while left != {}
      invariant left <= ids && top in ids && forall j | j in ids - left :: f(j) <= f(top)
      decreases left
    {
      var j :| j in left;
      left := left - {j};
      top := if f(top) < f(j) then j else top;
    }
  }

  lemma PinnedAgree(k: Known, login: string, req: Request, daemon: int)
    requires Pinned(k, login, req, daemon)
    ensures ReportedVersion(k, login, req) == k.DaemonVersionOn(k.DeviceOf(daemon))
  {
    forall id | Pinned(k, login, req, id) ensures k.DeviceOf(id) == k.DeviceOf(daemon) {
      assert OfRequest(k, login, req, id) && OfRequest(k, login, req, daemon);
    }
  }

  function Online(rows: Rows, ids: set<int>): set<int>
    requires ids <= rows.Keys
  {
    set id | id in ids && rows[id].status == ONLINE
  }

  lemma OnlineIsCounted(rows: Rows, ids: set<int>)
    requires ids <= rows.Keys
    ensures |Online(rows, ids)| == 0 <==> forall id | id in ids :: rows[id].status != ONLINE
  {
    var online := Online(rows, ids);
    assert forall id | id in ids :: id in online <==> rows[id].status == ONLINE;
    assert |online| == 0 ==> online == {};
    assert (forall id | id in ids :: rows[id].status != ONLINE) ==> online == {};
  }

  method CreateDaemonUpgradeTask(k: Known, login: string, req: Request, device: int) returns (o: Outcome)
    requires Component(req) == DAEMON
    ensures o.Planned? <==> DaemonGateAccepts(k.DaemonVersionOn(device), k.Latest(DAEMON))
    ensures o.Planned? ==> o.plan == Plan(NewTask(login, req, 0, k.DaemonVersionOn(device), k.Latest(DAEMON)), None)
    ensures !o.Planned? ==> o == if k.Latest(DAEMON) == "" then Malformed else Refused
  {
    hide V.Older;
    var latest := k.Latest(DAEMON);
    if latest == "" {
      return Malformed;
    }
    var from := k.DaemonVersionOn(device);
    if from != "" && from == latest {
      return Refused;
    }
    if from != "" && from != "dev" && from != "unknown" {
      var older := V.IsVersionOlder(from, latest);
      if !older {
        return Refused;
      }
    }
    o := Planned(Plan(NewTask(login, req, 0, from, latest), None));
  }

  method CreatePluginUpgradeTask(k: Known, login: string, req: Request, component: string) returns (o: Outcome)
    requires component == Component(req) && IsPlugin(component)
    ensures o.Planned? <==> Accepted(k, login, req)
    ensures !o.Planned? ==>
              o == if NamesForeignRuntime(k, login, req) then NotOwned else if InOrder(k, login, req) then Refused
                  else Malformed
    ensures o.Planned? ==>
              o.plan == Plan(NewTask(login, req, req.runtimeId, FromVersion(k, login, req), k.Latest(component)),
                             if component == CC_OCTO && FromVersion(k, login, req) == ""
                             then Some(S.Secret(req.gatewayUrl, req.apiKey, req.model)) else None)
              && (o.plan.secret.Some? ==> SecretGiven(k, req))
  {
    hide V.Older;
    DaemonIsNoPlugin();
    if req.runtimeId == 0 {
      return Malformed;
    }
    if req.runtimeId !in k.rows || !OfDaemon(k.rows[req.runtimeId], req.space, req.daemon, login) {
      return NotOwned;
    }
    if !ValidPluginForProvider(component, k.rows[req.runtimeId].route.kind) {
      return Malformed;
    }
    var from := k.Installed(req.runtimeId, component);
    var isInstall := from == "";
    if isInstall {
      if component == CC_OCTO {
        if req.gatewayUrl == "" || req.apiKey == "" {
          return Malformed;
        }
        if !k.gatewayAllowed {
          return Malformed;
        }
      }
    }
    var latest := k.Latest(component);
    if latest == "" {
      return Malformed;
    }
    if from == latest {
      return Refused;
    }
    var older := V.IsVersionOlder(from, latest);
    if !older {
      return Refused;
    }
    var secret := None;
    if component == CC_OCTO && isInstall {
      secret := Some(S.Secret(req.gatewayUrl, req.apiKey, req.model));
    }
    o := Planned(Plan(NewTask(login, req, req.runtimeId, from, latest), secret));
  }

  method CreateComponentUpgradeTask(k: Known, login: string, req: Request, component: string) returns (o: Outcome)
    requires component == Component(req) && component != DAEMON && !IsPlugin(component) && component in k.active
    ensures o.Planned? <==> Accepted(k, login, req)
    ensures !o.Planned? ==>
              o == if NamesForeignRuntime(k, login, req) then NotOwned else if InOrder(k, login, req) then Refused
                  else Malformed
    ensures o.Planned? ==>
              o.plan == Plan(NewTask(login, req, req.runtimeId, FromVersion(k, login, req), k.Latest(component)), None)
  {
    hide V.Older;
    if req.runtimeId == 0 {
      return Malformed;
    }
    if req.runtimeId !in k.rows || !OfDaemon(k.rows[req.runtimeId], req.space, req.daemon, login) {
      return NotOwned;
    }
    var runtime := k.rows[req.runtimeId];
    if runtime.route.kind != component {
      return Malformed;
    }
    var from := runtime.version;
    if from == "" {
      return Malformed;
    }
    var latest := k.Latest(component);
    if latest == "" {
      return Malformed;
    }
    if from == latest {
      return Refused;
    }
    if from != "dev" && from != "unknown" {
      var older := V.IsVersionOlder(from, latest);
      if !older {
        return Refused;
      }
    }
    o := Planned(Plan(NewTask(login, req, req.runtimeId, from, latest), None));
  }

  // ----- who passes, without the gates -----

  /** A plan is the caller's own, and a secret goes with an install only. */
  lemma PlanIsOwn(k: Known, login: string, req: Request, plan: Plan)
    requires Accepted(k, login, req) && GoodPlan(k, login, req, plan)
    ensures var t, secret := plan.task, plan.secret;
            && t.key == Key(req.space, req.daemon, login) && t.component == Component(req)
            && t.toVersion == k.Latest(t.component) && t.toVersion != "" && t.fromVersion != t.toVersion
            && (t.component != "octo-daemon" ==>
                  && t.runtimeId == req.runtimeId && req.runtimeId in k.rows
                  && k.rows[req.runtimeId].route.(kind := "") == Route(req.space, req.daemon, "", login))
            && (secret.Some? <==> t.component == "cc-octo" && t.fromVersion == "")
            && (secret.Some? ==>
                  && secret.value == S.Secret(req.gatewayUrl, req.apiKey, req.model)
                  && req.gatewayUrl != "" && req.apiKey != "" && k.gatewayAllowed)
  {
    hide V.Older;
    DaemonIsNoPlugin();
  }

  /** A runtime's own upgrade is accepted exactly for a runtime of the caller on that
      daemon whose provider is the component, if it reports a version older than the
      published one or a name that is no release and not the published one. */
  lemma ProviderRequestIff(k: Known, login: string, req: Request)
    requires req.component !in {"", "octo-daemon", "octo", "cc-octo"}
    requires req.component in k.active && req.component in k.latest
    ensures Accepted(k, login, req) <==>
            && req.runtimeId != 0 && req.runtimeId in k.rows
            && k.rows[req.runtimeId].route == Route(req.space, req.daemon, req.component, login)
            && var from, latest := k.rows[req.runtimeId].version, k.latest[req.component];
               from != "" && (V.Older(from, latest) || (from in {"dev", "unknown"} && latest !in {"", from}))
  {
    if req.runtimeId in k.rows {
      ProviderGateMeans(k.rows[req.runtimeId].version, k.latest[req.component]);
    }
    hide V.Older, ProviderGateAccepts, ReportedVersion;
  }

  lemma ProviderGateMeans(from: string, latest: string)
    ensures ProviderGateAccepts(from, latest) <==>
            from != "" && (V.Older(from, latest) || (from in {"dev", "unknown"} && latest !in {"", from}))
  {
    V.OlderIsStrictPartialOrder(from, from, from);
    if latest == "" {
      UnreleasedIsNeverNewer(from, latest);
    }
    hide V.Older;
  }

  /** A plugin's upgrade or install: the runtime must be the caller's and of the plugin's
      provider, and an install of cc-octo needs its credentials. */
  lemma PluginRequestIff(k: Known, login: string, req: Request, provider: string)
    requires (req.component, provider) in {("octo", "openclaw"), ("cc-octo", "claude")} && req.component in k.latest
    ensures Accepted(k, login, req) <==>
            && req.runtimeId != 0 && req.runtimeId in k.rows
            && k.rows[req.runtimeId].route == Route(req.space, req.daemon, provider, login)
            && var from, latest := k.Installed(req.runtimeId, req.component), k.latest[req.component];
               && V.Older(from, latest)
               && (from == "" && req.component == "cc-octo" ==>
                     req.gatewayUrl != "" && req.apiKey != "" && k.gatewayAllowed)
  {
    var from, latest := k.Installed(req.runtimeId, req.component), k.latest[req.component];
    V.OlderIsStrictPartialOrder(from, from, from);
    if latest == "" {
      UnreleasedIsNeverNewer(from, latest);
    }
    PluginsPairUp(req.component);
    DaemonIsNoPlugin();
    hide V.Older, ExpectedPluginComponent;
  }

  /** The daemon's own upgrade, by what the device with the greatest id reports: nothing,
      an older version, or a name that is no release and not the published one. */
  lemma DaemonRequestIff(k: Known, login: string, req: Request, pinned: int)
    requires req.component in {"", "octo-daemon"} && IsPinned(k, login, req, pinned)
    ensures Accepted(k, login, req) <==>
            var from, latest := k.DaemonVersionOn(pinned), k.Latest("octo-daemon");
            latest != "" && (from == "" || V.Older(from, latest) || (from in {"dev", "unknown"} && latest != from))
  {
    var top := PinnedDevice(k, login, req, pinned);
    var id :| Pinned(k, login, req, id) && k.DeviceOf(id) == pinned;
    DaemonRequest(k, login, req, id);
    var from := k.DaemonVersionOn(pinned);
    V.OlderIsStrictPartialOrder(from, from, from);
    hide V.Older, Accepted;
  }

  /** Whatever version closes a task to the latest one, a request that starts from that
      version is refused: a finished upgrade cannot be requested again. */
  lemma ClosedIsNotAcceptedAgain(k: Known, login: string, req: Request)
    requires var latest := k.Latest(Component(req));
             if Component(req) == DAEMON then FromVersion(k, login, req) != ""
                 && ClosesDaemonTask(FromVersion(k, login, req), latest)
             else ClosesRuntimeTask(FromVersion(k, login, req), latest)
    ensures !Accepted(k, login, req)
  {
    var latest, from := k.Latest(Component(req)), FromVersion(k, login, req);
    if Component(req) == DAEMON {
      ClosedDaemonMeansRefused(from, latest);
    } else {
      ClosedMeansRefused(from, latest);
    }
    hide ClosesRuntimeTask, ProviderGateAccepts, PluginGateAccepts, DaemonGateAccepts;
  }

  // ----- the daemon's hint and the daemon's gate -----

  /** A device that rows of the daemon are linked to; `list` shows a hint for each. */
  predicate DeviceOfDaemon(k: Known, login: string, req: Request, device: int) {
    device > 0 && exists id :: id in k.rows && OfRequest(k, login, req, id) && k.DeviceOf(id) == device
  }

  ghost predicate HintShown(k: Known, device: int) {
    ShowsDaemonHint(k.DaemonVersionOn(device), k.Latest(DAEMON))
  }

  /** The hint of the device and the gate for the daemon say the same. */
  ghost predicate HintAgrees(k: Known, login: string, req: Request, device: int) {
    HintShown(k, device) <==> Accepted(k, login, req)
  }

  /** The device that the gate reads is one of the daemon's, and the one with the greatest id. */
  lemma PinnedDevice(k: Known, login: string, req: Request, device: int) returns (pinned: int)
    requires DeviceOfDaemon(k, login, req, device)
    ensures DeviceOfDaemon(k, login, req, pinned) && device <= pinned
    ensures exists id :: Pinned(k, login, req, id) && k.DeviceOf(id) == pinned
    ensures forall d: int | DeviceOfDaemon(k, login, req, d) :: d <= pinned
    ensures ReportedVersion(k, login, req) == k.DaemonVersionOn(pinned)
  {
    var mine := set id | id in k.rows && OfRequest(k, login, req, id);
    var one: int :| one in k.rows && OfRequest(k, login, req, one) && k.DeviceOf(one) == device;
    assert one in mine;
    var top := Greatest(mine, id => k.DeviceOf(id));
    assert forall j | j in mine :: k.DeviceOf(j) <= k.DeviceOf(top);
    assert Pinned(k, login, req, top);
    PinnedAgree(k, login, req, top);
    pinned := k.DeviceOf(top);
  }

  /** Once a version is published, the hint of a device agrees with the gate exactly if
      this device is behind just when the one with the greatest id is behind or reports
      nothing. */
  lemma HintMatchesGateIff(k: Known, login: string, req: Request, device: int, pinned: int)
    requires Component(req) == DAEMON && V.SemverLike(k.Latest(DAEMON))
    requires DeviceOfDaemon(k, login, req, device) && IsPinned(k, login, req, pinned)
    ensures HintAgrees(k, login, req, device) <==>
            (Behind(k, device) <==> k.DaemonVersionOn(pinned) == "" || Behind(k, pinned))
  {
    var top := PinnedDevice(k, login, req, device);
    assert pinned == top;
    DaemonHintMatchesGateForReleases(k.DaemonVersionOn(pinned), k.Latest(DAEMON));
    var id :| Pinned(k, login, req, id) && k.DeviceOf(id) == pinned;
    DaemonRequest(k, login, req, id);
    hide Accepted, V.Older, V.SemverLike, DaemonGateAccepts;
  }

  /** The device reports a daemon version, and one older than the published one. */
  ghost predicate Behind(k: Known, device: int) {
    k.DaemonVersionOn(device) != "" && V.Older(k.DaemonVersionOn(device), k.Latest(DAEMON))
  }

  ghost predicate IsPinned(k: Known, login: string, req: Request, pinned: int) {
    DeviceOfDaemon(k, login, req, pinned) && forall d: int | DeviceOfDaemon(k, login, req, d) :: d <= pinned
  }

  predicate Reports(reported: map<int, string>, device: int) {
    device in reported && reported[device] != ""
  }

  /** So the two agree, whatever versions are reported, exactly for the one device with the
      greatest id. */
  lemma HintMatchesGateWhatever(k: Known, login: string, req: Request, device: int, pinned: int)
    requires Component(req) == DAEMON && V.SemverLike(k.Latest(DAEMON))
    requires DeviceOfDaemon(k, login, req, device) && IsPinned(k, login, req, pinned)
    ensures (forall reported | Reports(reported, device) && Reports(reported, pinned) ::
               HintAgrees(k.(reported := reported), login, req, device)) <==> device == pinned
  {
    hide V.SemverLike, HintAgrees, DeviceOfDaemon, IsPinned;
    if device == pinned {
      forall reported | Reports(reported, device) ensures HintAgrees(k.(reported := reported), login, req, device) {
        SameDevices(k, reported, login, req, device, pinned);
        DeviceIsLinked(k, login, req, device);
        HintMatchesGateIff(k.(reported := reported), login, req, device, pinned);
      }
    } else {
      var reported := map[device := "dev", pinned := k.Latest(DAEMON)];
      OtherDeviceDisagrees(k, login, req, device, pinned);
      assert Reports(reported, device) && Reports(reported, pinned);
    }
  }

  /** Let the other device report "dev" and the one with the greatest id the latest version. */
  lemma OtherDeviceDisagrees(k: Known, login: string, req: Request, device: int, pinned: int)
    requires Component(req) == DAEMON && V.SemverLike(k.Latest(DAEMON)) && device != pinned
    requires DeviceOfDaemon(k, login, req, device) && IsPinned(k, login, req, pinned)
    ensures k.Latest(DAEMON) != ""
    ensures !HintAgrees(k.(reported := map[device := "dev", pinned := k.Latest(DAEMON)]), login, req, device)
  {
    var latest := k.Latest(DAEMON);
    var k' := k.(reported := map[device := "dev", pinned := latest]);
    SameDevices(k, k'.reported, login, req, device, pinned);
    SemverIsReleased(latest);
    V.OlderIsStrictPartialOrder(latest, latest, latest);
    DevIsOlder(latest);
    assert device > 0 && pinned > 0;
    assert k'.DaemonVersionOn(device) == "dev" && k'.DaemonVersionOn(pinned) == latest && k'.Latest(DAEMON) == latest;
    hide V.Older, V.SemverLike, HintAgrees, DeviceOfDaemon, IsPinned;
    HintMatchesGateIff(k', login, req, device, pinned);
  }

  lemma DeviceIsLinked(k: Known, login: string, req: Request, device: int)
    requires DeviceOfDaemon(k, login, req, device)
    ensures device > 0
  {
  }

  lemma DevIsOlder(latest: string)
    requires !V.Unreleased(latest)
    ensures latest != "" && V.Older("dev", latest)
  {
  }

  /** What is reported does not matter for which devices there are. */
  lemma SameDevices(k: Known, reported: map<int, string>, login: string, req: Request, device: int, pinned: int)
    requires DeviceOfDaemon(k, login, req, device) && IsPinned(k, login, req, pinned)
    ensures var k' := k.(reported := reported);
            DeviceOfDaemon(k', login, req, device) && IsPinned(k', login, req, pinned)
  {
    var k' := k.(reported := reported);
    forall d: int ensures DeviceOfDaemon(k', login, req, d) <==> DeviceOfDaemon(k, login, req, d) {
      if id :| id in k.rows && OfRequest(k, login, req, id) && k.DeviceOf(id) == d {
        assert OfRequest(k', login, req, id) && k'.DeviceOf(id) == d;
      }
      if id :| id in k'.rows && OfRequest(k', login, req, id) && k'.DeviceOf(id) == d {
        assert OfRequest(k, login, req, id) && k.DeviceOf(id) == d;
      }
    }
  }

  /** The device column after a registration of the rows `ids` from `device`: rows that it
      does not name keep theirs, and so do all if the device is not reported. */
  function Linked(devices: map<int, int>, ids: set<int>, device: int): map<int, int> {
    map id | id in devices.Keys + ids ::
      if id in ids && device > 0 then device else if id in devices then devices[id] else 0
  }

  /** A daemon that registered two runtimes from device 5, which reports `older`, and then
      one of them from device 7, which reports the latest version. */
  function MovedDaemon(space: string, daemon: string, login: string, older: string, latest: string): Known {
    Known(map[1 := ClaudeRow(space, daemon, login), 2 := OpenclawRow(space, daemon, login)],
          Linked(Linked(map[], {1, 2}, 5), {1}, 7), map[], map[5 := older, 7 := latest], map[DAEMON := latest],
          {"claude", "openclaw"}, true)
  }

  function ClaudeRow(space: string, daemon: string, login: string): Runtime {
    Runtime(Route(space, daemon, "claude", login), "", ONLINE, "", 0, 0)
  }

  function OpenclawRow(space: string, daemon: string, login: string): Runtime {
    Runtime(Route(space, daemon, "openclaw", login), "", ONLINE, "", 0, 0)
  }

  lemma MovedDevices(login: string, req: Request, older: string, latest: string)
    ensures var k := MovedDaemon(req.space, req.daemon, login, older, latest);
            && DeviceOfDaemon(k, login, req, 5) && IsPinned(k, login, req, 7)
            && k.DaemonVersionOn(5) == older && k.DaemonVersionOn(7) == latest && k.Latest(DAEMON) == latest
  {
    var k := MovedDaemon(req.space, req.daemon, login, older, latest);
    hide ClaudeRow, OpenclawRow;
    assert OfRequest(k, login, req, 1) && OfRequest(k, login, req, 2) by {
      RowsAreTheDaemons(req, login);
    }
    assert k.DeviceOf(1) == 7 && k.DeviceOf(2) == 5;
    assert forall id | id in k.rows :: id == 1 || id == 2;
  }

  lemma RowsAreTheDaemons(req: Request, login: string)
    ensures OfDaemon(ClaudeRow(req.space, req.daemon, login), req.space, req.daemon, login)
    ensures OfDaemon(OpenclawRow(req.space, req.daemon, login), req.space, req.daemon, login)
  {
  }

  /** With releases only, too: the old device still gets a hint, and the gate, which reads
      the new one, refuses the upgrade. */
  lemma TwoDevicesDisagree(login: string, req: Request, older: string, latest: string)
    requires Component(req) == DAEMON && V.SemverLike(older) && V.SemverLike(latest) && V.Older(older, latest)
    ensures var k := MovedDaemon(req.space, req.daemon, login, older, latest);
            && DeviceOfDaemon(k, login, req, 5) && IsPinned(k, login, req, 7)
            && HintShown(k, 5) && !Accepted(k, login, req)
  {
    hide MovedDaemon, V.Older, DeviceOfDaemon, IsPinned, Accepted;
    MovedDevices(login, req, older, latest);
    SemverIsReleased(older);
    SemverIsReleased(latest);
    V.OlderIsStrictPartialOrder(latest, latest, latest);
    HintMatchesGateIff(MovedDaemon(req.space, req.daemon, login, older, latest), login, req, 5, 7);
  }

  /** Such versions exist: "1.0" and "2.0". */
  lemma OneIsOlderThanTwo()
    ensures V.SemverLike("1.0") && V.SemverLike("2.0") && V.Older("1.0", "2.0")
  {
    V.TwoDigits('1', '0');
    V.TwoDigits('2', '0');
    hide V.Parsed, V.SemverLike;
    assert ['1', '.', '0'] == "1.0" && ['2', '.', '0'] == "2.0";
    assert V.SmallerAt([1, 0], [2, 0], 0);
  }
}
