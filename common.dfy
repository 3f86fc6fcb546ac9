/** Service addresses shared by the resolvers and controllers. */
module Common {
  import opened Strings

  /** The context key under which the administrative client is stored. */
  const AdminClientKey := "adminClient"

  /** `ModelServiceURL`: the prediction endpoint of a deployed model's
      inference service. */
  function ModelServiceUrl(modelId: string, namespace: string): (url: string)
    ensures StartsWith(url, "http://" + modelId + "-predictor-default.")
    ensures EndsWith(url, "." + namespace + ".svc.cluster.local:80/v1/models/custom-model:predict")
  {
    var head := "http://" + modelId + "-predictor-default.";
    var tail := "." + namespace + ".svc.cluster.local:80/v1/models/custom-model:predict";
    var url := "http://" + modelId + "-predictor-default." + namespace + ".svc.cluster.local:80/v1/models/custom-model:predict";
    assert url == head + tail[1..] && tail == "." + tail[1..];
    assert url[..|head|] == head;
    assert url == head[..|head| - 1] + tail;
    assert url[|url| - |tail|..] == tail;
    url
  }

  /** `RedisServiceURL`: the address of a Redis storage's service. */
  function RedisServiceUrl(redisId: string, namespace: string): (url: string)
    ensures EndsWith(url, ".svc.cluster.local:6379")
  {
    var url := redisId + "." + namespace + ".svc.cluster.local:6379";
    assert url[|url| - 23..] == ".svc.cluster.local:6379";
    url
  }

  /** Names without dots give distinct Redis addresses: the storage name
      and namespace can be read back from the address. */
  lemma RedisServiceUrlParts(redisId: string, namespace: string)
    requires '.' !in redisId && '.' !in namespace
    ensures var parts := Split(RedisServiceUrl(redisId, namespace), '.');
      |parts| >= 2 && parts[0] == redisId && parts[1] == namespace
  {
    var rest := "svc.cluster.local:6379";
    RedisServiceUrlLayout(redisId, namespace);
    SplitAtFirst(redisId, '.', namespace + ['.'] + rest);
    SplitAtFirst(namespace, '.', rest);
    var tail := Split(rest, '.');
    assert Split(RedisServiceUrl(redisId, namespace), '.') == [redisId] + ([namespace] + tail);
  }

  /** The address is the storage name, a dot, the namespace, a dot and the
      cluster-local service suffix. */
  lemma RedisServiceUrlLayout(redisId: string, namespace: string)
    ensures RedisServiceUrl(redisId, namespace)
      == redisId + ['.'] + (namespace + ['.'] + "svc.cluster.local:6379")
  {
  }

  lemma RedisServiceUrlInjective(a: string, n: string, b: string, m: string)
    requires '.' !in a && '.' !in n && '.' !in b && '.' !in m
    requires RedisServiceUrl(a, n) == RedisServiceUrl(b, m)
    ensures a == b && n == m
  {
    RedisServiceUrlParts(a, n);
    RedisServiceUrlParts(b, m);
  }
}
