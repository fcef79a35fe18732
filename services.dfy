/**
 * The services page of `src/pages/Services.jsx`: it lists the services, flips
 * a service between enabled and disabled, and sets a service's profit percent
 * after checking that it lies in [0, 100]. Each write that succeeds is
 * followed by a reload of the list.
 */
module Services {
  import opened Common

  /** A service row as the backend returns it (only the fields the page reads). */
  datatype Service = Service(id: int, name: string, enabled: bool, profitPercent: real)

  /** The backend calls the page makes, recorded in the order they are issued. */
  datatype ServiceCall =
    | GetAllServices
    | EnableService(id: int)
    | DisableService(id: int)
    | UpdateProfitPercent(id: int, percent: real)

  const ProfitRangeMessage: string := "Profit % must be between 0 and 100"

  /** The write a toggle click issues: the opposite of the service's current flag. */
  function ToggleCall(service: Service): (call: ServiceCall)
    ensures call.DisableService? <==> service.enabled
    ensures call.EnableService? <==> !service.enabled
    ensures call == DisableService(service.id) || call == EnableService(service.id)
  {
    if service.enabled then DisableService(service.id) else EnableService(service.id)
  }

  /** The guard of `updateProfit`: strict comparisons, so 0 and 100 pass. */
  function ProfitRejected(value: real): (rejected: bool)
    ensures rejected <==> !(0.0 <= value <= 100.0)
  {
    value < 0.0 || value > 100.0
  }

  /** Every profit update that reached the backend carried a percent in [0, 100]. */
  ghost predicate ProfitCallsInRange(calls: seq<ServiceCall>) {
    forall i :: 0 <= i < |calls| && calls[i].UpdateProfitPercent? ==> 0.0 <= calls[i].percent <= 100.0
  }

  /** The page's two writes, and how they both end: a reload only after success. */
  function WriteCalls(write: ServiceCall, outcome: Response<()>): (calls: seq<ServiceCall>)
    ensures |calls| == (if outcome.Ok? then 2 else 1)
    ensures calls[0] == write
    ensures outcome.Ok? ==> calls[1] == GetAllServices
  {
    if outcome.Ok? then [write, GetAllServices] else [write]
  }

  /** A service's status badge: its colour classes and its text. */
  datatype Badge = Badge(classes: string, text: string)

  /** `StatusBadge`: green "ENABLED" for an enabled service, red "DISABLED" otherwise. */
  function StatusBadge(enabled: bool): (b: Badge)
    ensures b.text == "ENABLED" <==> enabled
    ensures b.text == "DISABLED" <==> !enabled
    ensures b.classes == "bg-green-100 text-green-700" <==> enabled
  {
    Badge(
      if enabled then "bg-green-100 text-green-700" else "bg-red-100 text-red-700",
      if enabled then "ENABLED" else "DISABLED")
  }

  /** The `Services` component's state and the backend calls it has issued. */
  class ServicesPage {
    var services: seq<Service>
    var loading: bool
    /** Every backend call, oldest first. */
    var calls: seq<ServiceCall>
    /** Messages shown with `alert`. */
    var alerts: seq<string>
    /** How many failures were written to the console. */
    var errorsLogged: nat

    /** The page never sends an out-of-range profit percent. */
    ghost predicate Valid()
      reads this
    {
      ProfitCallsInRange(calls)
    }

    constructor ()
      ensures Valid()
      ensures services == [] && loading && calls == [] && alerts == [] && errorsLogged == 0
    {
      services, loading := [], true;
      calls, alerts, errorsLogged := [], [], 0;
    }

    /**
     * `loadServices`: one read; a response replaces the list, a failure is
     * logged and keeps the previous list; `loading` ends false either way.
     */
    method LoadServices(response: Response<seq<Service>>)
      requires Valid()
      modifies this`services, this`loading, this`calls, this`errorsLogged
      ensures Valid()
      ensures calls == old(calls) + [GetAllServices]
      ensures !loading
      ensures response.Ok? ==> services == response.data && errorsLogged == old(errorsLogged)
      ensures response.Failed? ==> services == old(services) && errorsLogged == old(errorsLogged) + 1
    {
      calls := calls + [GetAllServices];
      match response {
        case Ok(data) =>
          services := data;
        case Failed =>
          errorsLogged := errorsLogged + 1;
      }
      loading := false;
      assert calls[|calls| - 1] == GetAllServices;
    }

    /**
     * `toggleService`: exactly one of disable or enable, chosen by the
     * service's flag; the list is reloaded (with `reload`) only if it succeeds.
     */
    method ToggleService(service: Service, outcome: Response<()>, reload: Response<seq<Service>>)
      requires Valid()
      modifies this`services, this`loading, this`calls, this`errorsLogged
      ensures Valid()
      ensures calls == old(calls) + WriteCalls(ToggleCall(service), outcome)
      ensures outcome.Ok? && reload.Ok? ==> services == reload.data
      ensures outcome.Failed? || reload.Failed? ==> services == old(services)
      ensures outcome.Failed? ==> loading == old(loading) && errorsLogged == old(errorsLogged) + 1
      ensures outcome.Ok? ==> !loading && errorsLogged == old(errorsLogged) + (if reload.Failed? then 1 else 0)
      ensures alerts == old(alerts)
    {
      if service.enabled {
        calls := calls + [DisableService(service.id)];
      } else {
        calls := calls + [EnableService(service.id)];
      }
      if outcome.Ok? {
        LoadServices(reload);
      } else {
        errorsLogged := errorsLogged + 1;
      }
    }

    /**
     * `updateProfit`: an out-of-range value raises an alert and nothing else;
     * otherwise exactly one update is sent, followed by a reload only if it succeeds.
     */
    method UpdateProfit(id: int, value: real, outcome: Response<()>, reload: Response<seq<Service>>)
      requires Valid()
      modifies this
      ensures Valid()
      ensures ProfitRejected(value) ==> alerts == old(alerts) + [ProfitRangeMessage]
      ensures ProfitRejected(value) ==> calls == old(calls) && services == old(services)
      ensures ProfitRejected(value) ==> loading == old(loading) && errorsLogged == old(errorsLogged)
      ensures !ProfitRejected(value) ==> alerts == old(alerts)
      ensures !ProfitRejected(value) ==> calls == old(calls) + WriteCalls(UpdateProfitPercent(id, value), outcome)
      ensures !ProfitRejected(value) && outcome.Ok? && reload.Ok? ==> services == reload.data
      ensures !ProfitRejected(value) && (outcome.Failed? || reload.Failed?) ==> services == old(services)
      ensures !ProfitRejected(value) && outcome.Failed? ==> errorsLogged == old(errorsLogged) + 1 && loading == old(loading)
      ensures !ProfitRejected(value) && outcome.Ok? ==>
                !loading && errorsLogged == old(errorsLogged) + (if reload.Failed? then 1 else 0)
    {
      if value < 0.0 || value > 100.0 {
        alerts := alerts + [ProfitRangeMessage];
        return;
      }
      calls := calls + [UpdateProfitPercent(id, value)];
      if outcome.Ok? {
        LoadServices(reload);
      } else {
        errorsLogged := errorsLogged + 1;
      }
    }
  }

  /** The two ends of the profit range are accepted, the values just outside are not. */
  lemma ProfitRangeEndpoints()
    ensures !ProfitRejected(0.0) && !ProfitRejected(100.0)
    ensures ProfitRejected(-1.0) && ProfitRejected(101.0)
  {
  }
}
