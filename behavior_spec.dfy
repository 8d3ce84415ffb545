/** The behaviour specification record: what the markdown compiler builds and
    the Elm generator reads. Every field the compiler fills is a string or a
    list of strings; numbers it would parse (a duration, a scan radius) are
    kept as the text they were parsed from. */
module BehaviorSpec {
  import opened Text

  /** A `{ condition, target }` pair read from a transition line. */
  datatype Transition = Transition(condition: string, target: string)

  /** One `key: value` entry of an operational behaviour's parameters. */
  datatype Param = Param(key: string, value: string)

  datatype Strategic = Strategic(
    strategicId: string,
    description: string,
    priority: string,
    tacticalDelegates: seq<string>,
    awarenessTypes: seq<string>,
    transitions: seq<Transition>)

  datatype Tactical = Tactical(
    tacticalId: string,
    description: string,
    priority: string,
    operationalSequence: seq<string>,
    awarenessTypes: seq<string>,
    successCondition: string,
    failureCondition: string,
    interruptible: bool,
    transitions: seq<Transition>)

  /** `parameters` is a JavaScript object: its keys keep the order in which
      they were first set. `duration` is `null` (None) or the text of the
      Duration field. */
  datatype Operational = Operational(
    operationalId: string,
    description: string,
    action: string,
    parameters: seq<Param>,
    duration: Option<string>,
    successCondition: string,
    failureCondition: string,
    sideEffects: seq<string>,
    result: seq<string>)

  /** `scanRadius` is `null` (None) or the text of the Scan Radius field. */
  datatype ActiveAwareness = ActiveAwareness(
    awarenessId: string,
    description: string,
    scanRadius: Option<string>,
    triggerCondition: string,
    forcedBehavior: string,
    priority: string,
    stores: seq<string>)

  datatype PassiveAwareness = PassiveAwareness(
    awarenessId: string,
    description: string,
    stores: seq<string>,
    influences: seq<string>)

  /** The whole record. `inherits` is `null` (None) unless an Inherits field
      is present. */
  datatype Spec = Spec(
    behaviorId: string,
    unitType: string,
    inherits: Option<string>,
    description: string,
    strategicBehaviors: seq<Strategic>,
    tacticalBehaviors: seq<Tactical>,
    operationalBehaviors: seq<Operational>,
    active: seq<ActiveAwareness>,
    passive: seq<PassiveAwareness>)
}
