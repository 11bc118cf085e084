/**
 * The game entry's component registry: a list of framework components in
 * which no two share a runtime type, searched front to back by type or by
 * type name, and emptied on shutdown.
 */
module GameEntries {

  /** A component's runtime type, with its full (namespace-qualified) name and its short name. */
  datatype ComponentType = ComponentType(fullName: string, name: string)

  /** A framework component; only its runtime type matters to the registry. */
  class GameFrameworkComponent {
    const componentType: ComponentType

    constructor (t: ComponentType)
      ensures componentType == t
    {
      componentType := t;
    }
  }

  datatype ShutdownType = None | Restart | Quit

  /** What `RegisterComponent` reported. */
  datatype Registration = Invalid | AlreadyExists | Registered

  /** No two components of `cs` have the same runtime type. */
  ghost predicate UniqueTypes(cs: seq<GameFrameworkComponent>) {
    forall i, j :: 0 <= i < j < |cs| ==> cs[i].componentType != cs[j].componentType
  }

  /** The position of the first component of type `t`, or -1 when there is none. */
  function IndexOfType(cs: seq<GameFrameworkComponent>, t: ComponentType): (k: int)
    ensures -1 <= k < |cs|
    ensures k == -1 <==> forall i :: 0 <= i < |cs| ==> cs[i].componentType != t
    ensures k >= 0 ==> cs[k].componentType == t && forall i :: 0 <= i < k ==> cs[i].componentType != t
  {
    if cs == [] then -1
    else if cs[0].componentType == t then 0
    else
      var k := IndexOfType(cs[1..], t);
      if k == -1 then -1 else k + 1
  }

  /** A type answers to its full name and to its short name. */
  predicate NamedBy(t: ComponentType, typeName: string) {
    t.fullName == typeName || t.name == typeName
  }

  /** The position of the first component whose type is named `typeName`, or -1 when there is none. */
  function IndexOfName(cs: seq<GameFrameworkComponent>, typeName: string): (k: int)
    ensures -1 <= k < |cs|
    ensures k == -1 <==> forall i :: 0 <= i < |cs| ==> !NamedBy(cs[i].componentType, typeName)
    ensures k >= 0 ==> NamedBy(cs[k].componentType, typeName)
    ensures k >= 0 ==> forall i :: 0 <= i < k ==> !NamedBy(cs[i].componentType, typeName)
  {
    if cs == [] then -1
    else if NamedBy(cs[0].componentType, typeName) then 0
    else
      var k := IndexOfName(cs[1..], typeName);
      if k == -1 then -1 else k + 1
  }

  /** A component appended to a list holding none of its type is the one found for that type. */
  lemma {:induction false} AppendedIsFound(cs: seq<GameFrameworkComponent>, c: GameFrameworkComponent)
    requires forall i :: 0 <= i < |cs| ==> cs[i].componentType != c.componentType
    ensures IndexOfType(cs + [c], c.componentType) == |cs|
  {
    if cs != [] {
      assert (cs + [c])[1..] == cs[1..] + [c];
      AppendedIsFound(cs[1..], c);
    }
  }

  /** In a list with unique types, the component found for a type is the only one of it. */
  lemma FoundIsOnly(cs: seq<GameFrameworkComponent>, t: ComponentType, i: int)
    requires UniqueTypes(cs) && 0 <= i < |cs| && cs[i].componentType == t
    ensures IndexOfType(cs, t) == i
  {
  }

  /** The registry (a static linked list in the framework). */
  class GameEntry {
    var components: seq<GameFrameworkComponent>

    ghost predicate Valid()
      reads this
    {
      UniqueTypes(components)
    }

    constructor ()
      ensures Valid() && components == []
    {
      components := [];
    }

    /** `GetComponent(Type)`: the first registered component of exactly type `t`, or null. */
    method GetComponentByType(t: ComponentType) returns (c: GameFrameworkComponent?)
      ensures c == null <==> IndexOfType(components, t) == -1
      ensures c != null ==> c == components[IndexOfType(components, t)] && c.componentType == t
    {
      var i := 0;
      while i < |components|
        invariant 0 <= i <= |components|
        invariant forall j :: 0 <= j < i ==> components[j].componentType != t
      {
        if components[i].componentType == t {
          return components[i];
        }
        i := i + 1;
      }
      return null;
    }

    /** `GetComponent(string)`: the first component whose type's full or short name is `typeName`, or null. */
    method GetComponentByName(typeName: string) returns (c: GameFrameworkComponent?)
      ensures c == null <==> IndexOfName(components, typeName) == -1
      ensures c != null ==> c == components[IndexOfName(components, typeName)] && NamedBy(c.componentType, typeName)
    {
      var i := 0;
      while i < |components|
        invariant 0 <= i <= |components|
        invariant forall j :: 0 <= j < i ==> !NamedBy(components[j].componentType, typeName)
      {
        var t := components[i].componentType;
        if t.fullName == typeName || t.name == typeName {
          return components[i];
        }
        i := i + 1;
      }
      return null;
    }

    /**
     * `RegisterComponent`: null is refused, a component whose type is
     * already registered is refused, anything else is appended at the end.
     */
    method RegisterComponent(c: GameFrameworkComponent?) returns (outcome: Registration)
      requires Valid()
      modifies this
      ensures Valid()
      ensures c == null ==> outcome == Invalid && components == old(components)
      ensures c != null && IndexOfType(old(components), c.componentType) >= 0 ==>
        outcome == AlreadyExists && components == old(components)
      ensures c != null && IndexOfType(old(components), c.componentType) == -1 ==>
        outcome == Registered && components == old(components) + [c]
      ensures outcome == Registered ==> IndexOfType(components, c.componentType) == |old(components)|
    {
      if c == null {
        return Invalid;
      }
      var t := c.componentType;
      var i := 0;
      while i < |components|
        invariant 0 <= i <= |components|
        invariant forall j :: 0 <= j < i ==> components[j].componentType != t
      {
        if components[i].componentType == t {
          return AlreadyExists;
        }
        i := i + 1;
      }
      AppendedIsFound(components, c);
      components := components + [c];
      outcome := Registered;
    }

    /**
     * The registry part of `Shutdown`: every shutdown type empties the
     * registry (stopping the base component, reloading the scene or quitting
     * the application is not modelled).
     */
    method Shutdown(shutdownType: ShutdownType)
      modifies this
      ensures Valid() && components == []
    {
      match shutdownType
      case None =>
        components := [];
      case Restart =>
        components := [];
      case Quit =>
        components := [];
    }
  }
}
