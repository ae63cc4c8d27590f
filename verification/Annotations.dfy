/** tests/testingResources.go: annotating the services of the cluster and clearing the annotations. */
module Annotations {
  import opened Wrappers

  type Marks = map<string, string>

  const LAST_APPLIED := "kubectl.kubernetes.io/last-applied-configuration"

  // Only the last-applied entry is left of what was there.
  predicate Cleared(before: Marks, after: Marks) {
    LAST_APPLIED in before && after == map[LAST_APPLIED := before[LAST_APPLIED]]
  }

  // Some of the entries have been set, nothing else has changed.
  predicate PartlySet(before: Marks, entries: Marks, after: Marks) {
    && before.Keys <= after.Keys <= before.Keys + entries.Keys
    && forall k :: k in after ==>
         || (k in entries && after[k] == entries[k])
         || (k in before && after[k] == before[k])
  }

  // Some entries other than last-applied have been removed, nothing else has changed.
  predicate PartlyCleared(before: Marks, after: Marks) {
    && after.Keys <= before.Keys
    && (forall k :: k in after ==> after[k] == before[k])
    && (LAST_APPLIED in before ==> LAST_APPLIED in after)
  }

  /** Annotating with entries that leave last-applied alone, however far it gets, makes no difference
    * to what clearing leaves. */
  lemma AnnotateThenClear(before: Marks, entries: Marks, between: Marks, after: Marks)
    requires LAST_APPLIED !in entries && PartlySet(before, entries, between)
    ensures Cleared(between, after) <==> Cleared(before, after)
  {
    if LAST_APPLIED in before {
      assert LAST_APPLIED in between && between[LAST_APPLIED] == before[LAST_APPLIED];
    }
  }

  // Clearing again, or after an attempt that broke off, gives the same.
  lemma ClearAfterAttempt(before: Marks, between: Marks, after: Marks)
    requires PartlyCleared(before, between)
    ensures Cleared(between, after) <==> Cleared(before, after)
  {
    if LAST_APPLIED in before {
      assert between[LAST_APPLIED] == before[LAST_APPLIED];
    }
  }

  class Cluster {
    var services: map<string, Marks>
    // How many commands have reported a failure.
    ghost var failures: nat

    constructor (services: map<string, Marks>)
      ensures this.services == services && failures == 0
    {
      this.services, failures := services, 0;
    }

    // Only this service may have changed, and no service has come or gone.
    twostate predicate OnlyTouched(service: string)
      reads this
    {
      && services.Keys == old(services).Keys
      && forall s :: s in services && s != service ==> services[s] == old(services)[s]
    }

    // One kubectl command that puts `marks` in the place of the annotations. If it reports success
    // it has had its effect; if it reports failure it may have had it or not.
    method Command(service: string, marks: Marks) returns (ok: bool)
      modifies this
      ensures ok ==> service in old(services)
      ensures failures == old(failures) + if ok then 0 else 1
      ensures OnlyTouched(service)
      ensures service in services ==> services[service] == marks || (!ok && services[service] == old(services)[service])
    {
      ok := *;
      var effective: bool := *;
      if service !in services {
        ok := false;
      } else if ok || effective {
        services := services[service := marks];
      }
      if !ok {
        failures := failures + 1;
      }
    }

    // `kubectl get service`; the command may fail at any time.
    method GetAnnotations(service: string) returns (annotations: Option<Marks>)
      modifies this`failures
      ensures annotations.Some? ==> service in services && annotations.value == services[service]
      ensures failures == old(failures) + if annotations.Some? then 0 else 1
    {
      var ok: bool := *;
      annotations := if ok && service in services then Some(services[service]) else None;
      if annotations.None? {
        failures := failures + 1;
      }
    }

    /** For every order of the keys: if no command fails all entries are set, otherwise it stops at
      * the failure with some of them set. */
    method AnnotateService(service: string, annMap: Marks) returns (ok: bool)
      requires service in services
      modifies this
      ensures OnlyTouched(service)
      ensures PartlySet(old(services)[service], annMap, services[service])
      ensures failures == old(failures) + if ok then 0 else 1
      ensures ok ==> services[service] == old(services)[service] + annMap
    {
      var left := annMap.Keys;
      ghost var before := services[service];
      while left != {}
        invariant left <= annMap.Keys
        invariant OnlyTouched(service) && failures == old(failures)
        invariant services[service] == before + (annMap - left)
        decreases left
      {
        var key :| key in left;
        var done := Command(service, services[service][key := annMap[key]]);
        if !done {
          return false;
        }
        left := left - {key};
      }
      assert annMap - left == annMap;
      ok := true;
    }

    // The loop over the annotations that were fetched. On success all but last-applied are gone.
    method RemoveMarks(service: string, keys: set<string>) returns (ok: bool)
      requires service in services && keys == services[service].Keys
      modifies this
      ensures OnlyTouched(service)
      ensures PartlyCleared(old(services)[service], services[service])
      ensures failures == old(failures) + if ok then 0 else 1
      ensures ok ==> services[service] == old(services)[service] - (keys - {LAST_APPLIED})
    {
      var left := keys;
      ghost var before := services[service];
      ghost var gone: set<string> := {};
      while left != {}
        invariant left <= keys && gone == keys - left - {LAST_APPLIED}
        invariant OnlyTouched(service) && failures == old(failures)
        invariant services[service] == before - gone
        decreases left
      {
        var key :| key in left;
        if key != LAST_APPLIED {
          assert before - gone - {key} == before - (gone + {key});
          var done := Command(service, services[service] - {key});
          if !done {
            return false;
          }
          gone := gone + {key};
        }
        left := left - {key};
      }
      assert gone == keys - {LAST_APPLIED};
      ok := true;
    }

    /** For every order of the keys and every failure: only entries other than last-applied go. It
      * returns nil exactly when no command failed and there was a last-applied entry, and then that
      * entry alone is left. */
    method ClearAnnotations(service: string) returns (ok: bool)
      requires service in services
      modifies this
      ensures OnlyTouched(service)
      ensures PartlyCleared(old(services)[service], services[service])
      ensures ok <==> failures == old(failures) && LAST_APPLIED in old(services)[service]
      ensures ok ==> Cleared(old(services)[service], services[service])
      ensures ok ==>
                && "kubectl.kubernetes.io/last-applied-configuration" in old(services)[service]
                && services[service] ==
                     map["kubectl.kubernetes.io/last-applied-configuration" :=
                           old(services)[service]["kubectl.kubernetes.io/last-applied-configuration"]]
    {
      var annotations := GetAnnotations(service);
      if annotations.None? {
        return false;
      }
      var removed := RemoveMarks(service, annotations.value.Keys);
      if !removed {
        return false;
      }
      var again := GetAnnotations(service);
      if again.None? {
        return false;
      }
      OnlyLastApplied(old(services)[service]);
      ok := |again.value| == 1;
    }
  }

  // What is left when all other entries are gone has one entry or none.
  lemma OnlyLastApplied(before: Marks)
    ensures var after := before - (before.Keys - {LAST_APPLIED});
            && (|after| == 1 <==> LAST_APPLIED in before)
            && (LAST_APPLIED in before ==> Cleared(before, after))
  {
    var after := before - (before.Keys - {LAST_APPLIED});
    if LAST_APPLIED in before {
      assert after == map[LAST_APPLIED := before[LAST_APPLIED]];
    } else {
      assert after == map[];
    }
  }
}
