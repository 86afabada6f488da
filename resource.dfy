/** The resource identity attached to everything the provider exports. The
    environment name and the random instance id are inputs. */
module Resource {
  import opened Values

  const DefaultServiceName := "exp-metrics"

  datatype Identity = Identity(serviceName: string, serviceNamespace: string, instanceId: string)

  /** Explicit "service.name", "service.namespace" and "service.instance.id" keys. */
  datatype IdentityConfig = IdentityConfig(
    serviceName: Option<string>,
    serviceNamespace: Option<string>,
    instanceId: Option<string>)

  const NoConfig := IdentityConfig(None, None, None)

  function OrElse(o: Option<string>, d: string): string {
    match o
    case Some(v) => v
    case None => d
  }

  /** The identity built on a factory call with an optional positional name. */
  function BuildIdentity(name: Option<string>, config: IdentityConfig, environment: string, uuid: string): Identity {
    Identity(
      OrElse(config.serviceName, OrElse(name, DefaultServiceName)),
      OrElse(config.serviceNamespace, environment),
      OrElse(config.instanceId, uuid))
  }

  /** Each field comes from the explicit key if given, otherwise from its
      default source; an explicit key overrides the positional name, the
      environment and the random id. */
  lemma IdentitySources(name: Option<string>, config: IdentityConfig, environment: string, uuid: string)
    ensures var r := BuildIdentity(name, config, environment, uuid);
      (config.serviceName.Some? ==> r.serviceName == config.serviceName.value) &&
      (config.serviceName.None? && name.Some? ==> r.serviceName == name.value) &&
      (config.serviceName.None? && name.None? ==> r.serviceName == DefaultServiceName) &&
      (r.serviceNamespace == if config.serviceNamespace.Some? then config.serviceNamespace.value else environment) &&
      (r.instanceId == if config.instanceId.Some? then config.instanceId.value else uuid)
  {
  }

  /** A complete explicit configuration fixes the identity whatever the
      positional name, the environment and the random id are. */
  lemma FullConfigWins(c: IdentityConfig, n1: Option<string>, n2: Option<string>, e1: string, e2: string, u1: string, u2: string)
    requires c.serviceName.Some? && c.serviceNamespace.Some? && c.instanceId.Some?
    ensures BuildIdentity(n1, c, e1, u1) == BuildIdentity(n2, c, e2, u2)
    ensures BuildIdentity(n1, c, e1, u1) == Identity(c.serviceName.value, c.serviceNamespace.value, c.instanceId.value)
  {
  }

  /** The three initialisation cases of the API test. */
  lemma InitialisationVectors()
    ensures BuildIdentity(None, NoConfig, "test", "random-uuid") == Identity("exp-metrics", "test", "random-uuid")
    ensures BuildIdentity(Some("test-app"), NoConfig, "test", "random-uuid") == Identity("test-app", "test", "random-uuid")
    ensures BuildIdentity(Some("test-app"),
      IdentityConfig(Some("name-override"), Some("namespace-override"), Some("instance-override")),
      "test", "random-uuid") == Identity("name-override", "namespace-override", "instance-override")
  {
  }
}
