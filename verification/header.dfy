/** The header's alert panel (src/components/Header.tsx): the expired-membership alerts it
    fetches, the bell that opens the panel, the badge and labels it shows, and logout. */
module Header {
  import opened Wrappers
  import Services

  /** A client whose membership has expired. */
  datatype AlertClient = AlertClient(name: string, phone: string, cedula: string, expiresOn: string, planName: string)

  /** The alert response: a message, a count, and the clients (a missing list is `None`). */
  datatype AlertResponse = AlertResponse(message: string, count: int, clients: Option<seq<AlertClient>>)

  /** The panel's state: whether it is open, the last alert data (`null` when absent), and the
      loading flag. */
  datatype Panel = Panel(open: bool, alertData: Option<AlertResponse>, loading: bool)

  /** How a fetch of the alerts settles; a JSON `null` body is `None`. */
  type Outcome = Fetched<Option<AlertResponse>>

  function InitialPanel(): (p: Panel)
    ensures !p.open && p.alertData.None? && !p.loading
  {
    Panel(false, None, false)
  }

  /** `fetchAlerts` starting: loading is set, the data is kept until the response arrives. */
  function BeginFetch(p: Panel): (r: Panel)
    ensures r.loading && r.open == p.open && r.alertData == p.alertData
  {
    p.(loading := true)
  }

  /** `fetchAlerts` settling: success stores the body as the alert data, failure clears it,
      and loading ends either way. */
  function SettleFetch(p: Panel, o: Outcome): (r: Panel)
    ensures !r.loading && r.open == p.open
    ensures o.Ok? ==> r.alertData == o.data
    ensures o.Err? ==> r.alertData.None?
  {
    match o
    case Ok(body) => p.(alertData := body, loading := false)
    case Err => p.(alertData := None, loading := false)
  }

  /** A click on the bell: the panel flips, and a fetch starts only when it was closed. */
  function ClickBell(p: Panel): (r: Panel)
    ensures r.open == !p.open && r.alertData == p.alertData
    ensures r.loading == (p.loading || !p.open)
  {
    var flipped := p.(open := !p.open);
    if !p.open then BeginFetch(flipped) else flipped
  }

  /** The number on the bell's badge, when the badge is shown. */
  function Badge(p: Panel): (b: Option<int>)
    ensures b.Some? <==> p.alertData.Some? && p.alertData.value.count > 0
    ensures b.Some? ==> b.value == p.alertData.value.count && b.value > 0
  {
    if p.alertData.Some? && p.alertData.value.count > 0 then Some(p.alertData.value.count) else None
  }

  /** The noun after the count in the panel's title: singular exactly for one. */
  function CountNoun(count: int): (s: string)
    ensures s == "Vencida" <==> count == 1
    ensures s == "Vencida" || s == "Vencidas"
  {
    if count == 1 then "Vencida" else "Vencidas"
  }

  /** The count label of the panel's title: shown only while the panel is open, and then
      whenever alert data is present. */
  function CountLabel(p: Panel): (l: Option<string>)
    ensures l.Some? <==> p.open && p.alertData.Some?
  {
    if !p.open then None
    else match p.alertData
      case None => None
      case Some(a) => Some(Services.IntText(a.count) + " " + CountNoun(a.count))
  }

  /** What the panel's body shows; nothing at all while the panel is closed. */
  datatype Body = Hidden | Spinner | Rows(clients: seq<AlertClient>) | EmptyMessage

  function PanelBody(p: Panel): (b: Body)
    ensures b.Hidden? <==> !p.open
    ensures b.Spinner? <==> p.open && p.loading
    ensures b.Rows? ==> !p.loading && p.alertData.Some? && p.alertData.value.clients == Some(b.clients) && |b.clients| > 0
    ensures b.EmptyMessage? <==> p.open && !p.loading && (p.alertData.None? || p.alertData.value.clients.None? || |p.alertData.value.clients.value| == 0)
  {
    if !p.open then Hidden
    else if p.loading then Spinner
    else if p.alertData.Some? && p.alertData.value.clients.Some? && |p.alertData.value.clients.value| > 0 then
      Rows(p.alertData.value.clients.value)
    else EmptyMessage
  }

  /** The count label reads the numeral of the count followed by its noun. */
  lemma CountLabelScenarios(message: string, clients: Option<seq<AlertClient>>)
    ensures CountLabel(Panel(true, Some(AlertResponse(message, 1, clients)), false)) == Some("1 Vencida")
    ensures CountLabel(Panel(true, Some(AlertResponse(message, 3, clients)), false)) == Some("3 Vencidas")
    ensures CountLabel(Panel(true, Some(AlertResponse(message, 0, clients)), false)) == Some("0 Vencidas")
  {
    assert Services.IntText(1) == "1";
    assert Services.IntText(3) == "3";
    assert Services.IntText(0) == "0";
    assert "1" + " " + "Vencida" == "1 Vencida";
    assert "3" + " " + "Vencidas" == "3 Vencidas";
    assert "0" + " " + "Vencidas" == "0 Vencidas";
  }

  // ---------------------------------------------------------------------------------------
  // Event traces
  // ---------------------------------------------------------------------------------------

  /** What can happen to the panel: a click on the bell, a fetch started by the mount effect or
      the five-minute timer, or a fetch settling. */
  datatype Event = Click | Poll | Settle(outcome: Outcome)

  function Step(p: Panel, e: Event): Panel {
    match e
    case Click => ClickBell(p)
    case Poll => BeginFetch(p)
    case Settle(o) => SettleFetch(p, o)
  }

  function Run(p: Panel, evs: seq<Event>): Panel
    decreases |evs|
  {
    if |evs| == 0 then p else Run(Step(p, evs[0]), evs[1..])
  }

  lemma {:induction false} RunSnoc(p: Panel, evs: seq<Event>, e: Event)
    ensures Run(p, evs + [e]) == Step(Run(p, evs), e)
    decreases |evs|
  {
    if |evs| > 0 {
      assert (evs + [e])[1..] == evs[1..] + [e];
      RunSnoc(Step(p, evs[0]), evs[1..], e);
    }
  }

  /** Number of clicks in a trace. */
  function Clicks(evs: seq<Event>): nat {
    if |evs| == 0 then 0 else (if evs[|evs| - 1].Click? then 1 else 0) + Clicks(evs[..|evs| - 1])
  }

  /** The outcome of the last fetch to settle in a trace, if any settled. */
  function LastSettled(evs: seq<Event>): Option<Outcome> {
    if |evs| == 0 then None
    else if evs[|evs| - 1].Settle? then Some(evs[|evs| - 1].outcome)
    else LastSettled(evs[..|evs| - 1])
  }

  /** Over any trace the panel is open exactly when it started open and the bell was clicked an
      even number of times, or started closed and was clicked an odd number of times; the alert
      data is that of the last fetch to settle (last-settled-wins), or the initial data when
      none settled. */
  lemma {:induction false} RunSpec(p: Panel, evs: seq<Event>)
    ensures Run(p, evs).open == (p.open != (Clicks(evs) % 2 == 1))
    ensures Run(p, evs).alertData ==
      match LastSettled(evs)
      case None => p.alertData
      case Some(Ok(body)) => body
      case Some(Err) => None
    decreases |evs|
  {
    if |evs| > 0 {
      var init, last := evs[..|evs| - 1], evs[|evs| - 1];
      assert evs == init + [last];
      RunSpec(p, init);
      RunSnoc(p, init, last);
    }
  }

  /** Fetches are not tracked individually: when one of two overlapping fetches settles,
      loading ends although the other is still outstanding. */
  lemma OverlapEndsLoadingEarly(p: Panel, o: Outcome)
    ensures Run(p, [Poll, Poll, Settle(o)]).loading == false
  {
    var evs := [Poll, Poll, Settle(o)];
    assert evs[1..] == [Poll, Settle(o)];
    assert evs[1..][1..] == [Settle(o)];
    assert evs[1..][1..][1..] == [];
    var p2 := BeginFetch(BeginFetch(p));
    assert Run(p, evs) == Run(p2, [Settle(o)]);
    assert Run(p2, [Settle(o)]) == Run(SettleFetch(p2, o), []);
  }

  /** A fetch returning three alerts puts 3 on the badge; one returning none shows no badge. */
  lemma BadgeScenarios(p: Panel, message: string, clients: seq<AlertClient>)
    ensures Badge(SettleFetch(BeginFetch(p), Ok(Some(AlertResponse(message, 3, Some(clients)))))) == Some(3)
    ensures Badge(SettleFetch(BeginFetch(p), Ok(Some(AlertResponse(message, 0, Some([])))))) == None
    ensures Badge(SettleFetch(BeginFetch(p), Err)) == None
  {
  }

  // ---------------------------------------------------------------------------------------
  // Logout
  // ---------------------------------------------------------------------------------------

  const LoginPath := "/login"

  /** `handleLogout`: the stored token is removed and the app navigates to the login page. */
  function Logout(store: Services.Storage): (r: (Services.Storage, string))
    ensures Services.StoredToken(r.0).None? && r.1 == LoginPath
    ensures forall k :: k != Services.TokenKey ==>
      (k in r.0 <==> k in store) && (k in r.0 ==> r.0[k] == store[k])
  {
    (Services.RemoveToken(store), LoginPath)
  }

  /** After logout the interceptor adds no credential to any request. */
  lemma LogoutStopsCredentials(store: Services.Storage, cfg: Services.RequestConfig)
    ensures Services.Intercept(cfg, Services.StoredToken(Logout(store).0)) == cfg
  {
  }
}
