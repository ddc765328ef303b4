/** pkg/controller/profilebundle/profilebundle_controller.go, call by call. */
module BundleController {
  import opened ApiTypes
  import opened ApiStore
  import opened ApiClient
  import Spec = BundleReconcile

  class Reconciler {
    const client: Client

    constructor (client: Client)
      ensures this.client == client
    {
      this.client := client;
    }

    method Reconcile(ns: string, name: string) returns (outcome: Outcome)
      modifies client
      ensures (client.world, outcome) == Spec.Reconcile(old(client.world), ns, name)
    {
      var got := client.Get(BundleKey(ns, name));
      if got.Err? {
        return if got.error == NotFound then Done else Requeue;
      }
      var instance := got.value;

      var found := client.Get(Spec.PodKey(ns, name));
      if found.Err? && found.error == NotFound {
        var status := instance.body.bundleStatus.(state := BundlePending);
        var updated := client.UpdateStatus(BundleKey(ns, name), instance.version,
          ProfileBundleBody(instance.body.bundleSpec, status));
        if updated.Err? {
          return Requeue;
        }
        var created := client.Create(Spec.PodKey(ns, name), BundleOwners(name, instance.uid), PodBody(Pod([])));
        return OutcomeOf(created);
      } else if found.Err? {
        return Requeue;
      }

      var failed := PodStartupError(found.value.body.pod);
      if failed {
        var status := instance.body.bundleStatus.(state := BundleInvalid, message := Spec.STARTUP_ERROR);
        var updated := client.UpdateStatus(BundleKey(ns, name), instance.version,
          ProfileBundleBody(instance.body.bundleSpec, status));
        return OutcomeOf(updated);
      }
      return Done;
    }

    method PodStartupError(pod: Pod) returns (failed: bool)
      ensures failed <==> Spec.CannotPull(pod.initStatuses)
      ensures failed <==> Spec.StartupError(pod.initStatuses)
    {
      Spec.CannotPullIsStartupError(pod.initStatuses);
      for i := 0 to |pod.initStatuses|
        invariant forall j :: 0 <= j < i ==> !pod.initStatuses[j].ready && !Spec.IsWaiting(pod.initStatuses[j])
      {
        if pod.initStatuses[i].ready {
          break;
        }
        if pod.initStatuses[i].waiting.None? {
          continue;
        }
        if pod.initStatuses[i].waiting.value in ["ImagePullBackOff", "ErrImagePull"] {
          return true;
        }
      }
      return false;
    }
  }
}
