/**
 * The centralized worker's registries (internal/worker/registry.go): a
 * Registry of workflows and activities by name, and a FeatureManager of
 * features by name.
 *
 * A registered workflow or activity function is an opaque Component. A
 * feature is its name, its task queues and what its RegisterComponents call
 * reports; what that call registers lives in the feature's own code, which
 * is not part of this model. Go's map iteration order is unspecified, so the
 * loops over a map visit its keys in an arbitrary order.
 */
module WorkerRegistry {
  import opened GoTypes

  datatype Component = Component(funcName: string)

  /** The keys of a map, each exactly once, in some order. */
  ghost predicate ListsKeysOnce<V>(names: seq<string>, m: map<string, V>)
  {
    && (forall n :: n in names <==> n in m)
    && (forall i, j :: 0 <= i < j < |names| ==> names[i] != names[j])
  }

  /** A `for name := range m` loop appending each key. */
  method KeysInSomeOrder<V>(m: map<string, V>) returns (names: seq<string>)
    ensures ListsKeysOnce(names, m)
    ensures |names| == |m.Keys|
  {
    names := [];
    var remaining := m.Keys;
    while remaining != {}
      invariant remaining <= m.Keys
      invariant forall n :: n in names <==> n in m.Keys - remaining
      invariant forall i, j :: 0 <= i < j < |names| ==> names[i] != names[j]
      invariant |names| + |remaining| == |m.Keys|
      decreases |remaining|
    {
      var name :| name in remaining;
      assert name !in names;
      names := names + [name];
      remaining := remaining - {name};
    }
  }

  class Registry {
    var workflows: map<string, Component>
    var activities: map<string, Component>

    /** NewRegistry. */
    constructor ()
      ensures workflows == map[] && activities == map[]
    {
      workflows := map[];
      activities := map[];
    }

    method RegisterWorkflow(name: string, workflow: Component)
      modifies this
      ensures workflows == old(workflows)[name := workflow]
      ensures activities == old(activities)
    {
      workflows := workflows[name := workflow];
    }

    method RegisterActivity(name: string, activity: Component)
      modifies this
      ensures activities == old(activities)[name := activity]
      ensures workflows == old(workflows)
    {
      activities := activities[name := activity];
    }

    method GetRegisteredWorkflows() returns (names: seq<string>)
      ensures ListsKeysOnce(names, workflows) && |names| == |workflows.Keys|
    {
      names := KeysInSomeOrder(workflows);
    }

    method GetRegisteredActivities() returns (names: seq<string>)
      ensures ListsKeysOnce(names, activities) && |names| == |activities.Keys|
    {
      names := KeysInSomeOrder(activities);
    }
  }

  /** A feature as the manager sees it. `registerError` is what its
      RegisterComponents call returns. */
  datatype FeatureRegistrar = FeatureRegistrar(featureName: string, taskQueues: seq<string>, registerError: Option<string>)

  /** The task queues of the features named by `order`, one after another. */
  function QueuesOf(features: map<string, FeatureRegistrar>, order: seq<string>): seq<string>
    requires forall n :: n in order ==> n in features
  {
    if |order| == 0 then []
    else QueuesOf(features, order[..|order| - 1]) + features[order[|order| - 1]].taskQueues
  }

  /** A queue is in the concatenation exactly when one of the listed features
      has it. */
  lemma {:induction false} QueuesOfMembers(features: map<string, FeatureRegistrar>, order: seq<string>, q: string)
    requires forall n :: n in order ==> n in features
    ensures q in QueuesOf(features, order) <==> exists i :: 0 <= i < |order| && q in features[order[i]].taskQueues
  {
    if |order| > 0 {
      var prefix := order[..|order| - 1];
      QueuesOfMembers(features, prefix, q);
      if q in QueuesOf(features, order) && q !in features[order[|order| - 1]].taskQueues {
        var i :| 0 <= i < |prefix| && q in features[prefix[i]].taskQueues;
        assert order[i] == prefix[i];
      }
      if exists i :: 0 <= i < |order| && q in features[order[i]].taskQueues {
        var i :| 0 <= i < |order| && q in features[order[i]].taskQueues;
        if i < |order| - 1 {
          assert prefix[i] == order[i];
        }
      }
    }
  }

  class FeatureManager {
    var features: map<string, FeatureRegistrar>
    const registry: Registry

    /** NewFeatureManager. */
    constructor (registry: Registry)
      ensures features == map[] && this.registry == registry
    {
      features := map[];
      this.registry := registry;
    }

    /** RegisterFeature: keyed by the feature's name, replacing an earlier
        one; always nil. */
    method RegisterFeature(feature: FeatureRegistrar) returns (err: Option<string>)
      modifies this
      ensures features == old(features)[feature.featureName := feature]
      ensures err == None
    {
      features := features[feature.featureName := feature];
      err := None;
    }

    /** InitializeFeature: `invoked` is the feature whose RegisterComponents
        was called, if any. */
    method InitializeFeature(featureName: string) returns (err: Option<string>, invoked: Option<FeatureRegistrar>)
      ensures featureName !in features ==> err == Some("feature " + featureName + " not found") && invoked == None
      ensures featureName in features ==> invoked == Some(features[featureName])
      ensures featureName in features && features[featureName].registerError.Some? ==>
        err == Some("failed to register components for feature " + featureName + ": " + features[featureName].registerError.value)
      ensures err == None <==> featureName in features && features[featureName].registerError.None?
    {
      if featureName !in features {
        return Some("feature " + featureName + " not found"), None;
      }
      var feature := features[featureName];
      invoked := Some(feature);
      match feature.registerError {
        case Some(e) =>
          err := Some("failed to register components for feature " + featureName + ": " + e);
        case None =>
          err := None;
      }
    }

    method GetFeatureTaskQueues(featureName: string) returns (queues: seq<string>)
      ensures featureName in features ==> queues == features[featureName].taskQueues
      ensures featureName !in features ==> queues == []
    {
      if featureName !in features {
        return [];
      }
      queues := features[featureName].taskQueues;
    }

    /** GetAllTaskQueues: every feature's queues, feature after feature in
        map order; duplicates are kept. */
    method GetAllTaskQueues() returns (allQueues: seq<string>, ghost order: seq<string>)
      ensures ListsKeysOnce(order, features)
      ensures allQueues == QueuesOf(features, order)
      ensures forall q :: q in allQueues <==> exists n :: n in features && q in features[n].taskQueues
    {
      allQueues := [];
      order := [];
      var remaining := features.Keys;
      while remaining != {}
        invariant remaining <= features.Keys
        invariant forall n :: n in order <==> n in features.Keys - remaining
        invariant forall i, j :: 0 <= i < j < |order| ==> order[i] != order[j]
        invariant allQueues == QueuesOf(features, order)
        decreases |remaining|
      {
        var name :| name in remaining;
        assert name !in order;
        assert (order + [name])[..|order|] == order;
        allQueues := allQueues + features[name].taskQueues;
        order := order + [name];
        remaining := remaining - {name};
      }
      forall q
        ensures q in allQueues <==> exists n :: n in features && q in features[n].taskQueues
      {
        QueuesOfMembers(features, order, q);
        if exists n :: n in features && q in features[n].taskQueues {
          var n :| n in features && q in features[n].taskQueues;
          assert n in order;
          var i :| 0 <= i < |order| && order[i] == n;
        }
      }
    }

    method GetRegisteredFeatures() returns (names: seq<string>)
      ensures ListsKeysOnce(names, features) && |names| == |features.Keys|
    {
      names := KeysInSomeOrder(features);
    }
  }
}
