/** The wizard's load-balancer step: the derived load-balancer name and the
    effect that keeps the target and health-check ports on the container port. */
module AlbForm {
  import opened Json
  import opened Strings
  import opened Wizard

  /** The naming effect: an empty load-balancer name becomes `{name}-alb` once
      the resource has a name. */
  function AlbNameEffect(v: WizardValues): (r: WizardValues)
    ensures v.alb.name == "" && v.name != "" ==> r == v.(alb := v.alb.(name := v.name + "-alb"))
    ensures !(v.alb.name == "" && v.name != "") ==> r == v
  {
    if v.alb.name == "" && v.name != "" then v.(alb := v.alb.(name := v.name + "-alb")) else v
  }

  lemma AlbNameSettles(v: WizardValues)
    ensures AlbNameEffect(AlbNameEffect(v)) == AlbNameEffect(v)
  {
  }

  /** The port effect: a truthy container port that differs from the target port
      is copied into it, and its decimal text into the health-check port. */
  function PortSync(v: WizardValues): (r: WizardValues)
    ensures NumberTruthy(v.ecs.containerPort) && v.alb.targetPort != v.ecs.containerPort ==>
      && r.alb.targetPort == v.ecs.containerPort
      && ParseInt(r.alb.healthCheckPort) == Some(v.ecs.containerPort.n)
      && r == v.(alb := r.alb) && r.alb == v.alb.(targetPort := r.alb.targetPort, healthCheckPort := r.alb.healthCheckPort)
    ensures !NumberTruthy(v.ecs.containerPort) ==> r == v
    ensures v.alb.targetPort == v.ecs.containerPort ==> r == v
  {
    var c := v.ecs.containerPort;
    if NumberTruthy(c) && v.alb.targetPort != c then
      v.(alb := v.alb.(targetPort := c, healthCheckPort := NumberText(c)))
    else v
  }

  /** After one run the target port equals a truthy container port, so the
      effect settles. */
  lemma PortSyncSettles(v: WizardValues)
    ensures NumberTruthy(v.ecs.containerPort) ==> PortSync(v).alb.targetPort == v.ecs.containerPort
    ensures PortSync(PortSync(v)) == PortSync(v)
  {
  }

  /** From the wizard's initial values (container port 80, target port 80) the
      effect does nothing until the container port is edited. */
  lemma InitialPortsInSync()
    ensures PortSync(InitialValues) == InitialValues
  {
  }
}
