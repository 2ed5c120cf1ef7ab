/** The payload classes: guarded setters, and fields written to and read from a stream one after the other. */
module PayloadObjects {
  import opened Options
  import opened Sequences
  import opened Framing
  import opened Events
  import opened Codec

  const INVALID: Int8 := -1

  class ComponentData {
    var entityId: Int32
    var command: Int8
    var componentName: string
    var newValue: Value
    var oldValue: Value

    ghost function Model(): Data
      reads this
    { Data.Component(entityId, command, componentName, newValue, oldValue) }

    constructor ()
      ensures Model() == New(COMPONENT).value
    {
      entityId, command, componentName, newValue, oldValue := -1, INVALID, "", Invalid, Invalid;
    }

    method SetEntityId(e: Int32)
      modifies this`entityId
      ensures Model() == old(Model()).WithEntity(e)
    { if e >= 0 { entityId := e; } }

    /** The first command stays. */
    method SetCommand(c: Int8)
      modifies this`command
      ensures command == if old(command) == INVALID then c else old(command)
    { if command == INVALID { command := c; } }

    method SetComponentName(name: string)
      modifies this`componentName
      ensures componentName == if name == "" then old(componentName) else name
    { if name != "" { componentName := name; } }

    /** An invalid value is not taken. */
    method SetNewValue(v: Value)
      modifies this`newValue
      ensures newValue == if v == Invalid then old(newValue) else v
    { if v != Invalid { newValue := v; } }

    method SetOldValue(v: Value)
      modifies this`oldValue
      ensures oldValue == v
    { if oldValue != v { oldValue := v; } }

    method Serialize(qt: Qt) returns (stream: seq<Byte>)
      ensures stream == Model().Serialize(qt)
    {
      var n, v, w := qt.text.put(componentName), qt.value.put(newValue), qt.value.put(oldValue);
      stream := PutInt8(command);
      stream := stream + n;
      stream := stream + PutInt(entityId);
      stream := stream + v;
      stream := stream + w;
      Regroup(PutInt8(command), n, PutInt(entityId));
      Regroup(PutInt8(command), n + PutInt(entityId), v);
      Regroup(PutInt8(command), n + PutInt(entityId) + v, w);
      Regroup(n, PutInt(entityId), v);
      Regroup(n, PutInt(entityId) + v, w);
      Regroup(PutInt(entityId), v, w);
    }

    method Deserialize(qt: Qt, bytes: seq<Byte>)
      modifies this
      ensures Model() == old(Model()).Deserialize(qt, bytes)
    {
      var (c, b1) := GetInt8(bytes);
      command := c;
      var (name, b2) := qt.text.get(b1);
      componentName := name;
      var (e, b3) := GetInt(b2);
      var (v, b4) := qt.value.get(b3);
      newValue := v;
      var (w, _) := qt.value.get(b4);
      oldValue := w;
      SetEntityId(e);
    }
  }

  class EntityData {
    var entityId: Int32
    var command: Int8

    ghost function Model(): Data
      reads this
    { Data.Entity(entityId, command) }

    constructor ()
      ensures Model() == New(ENTITY).value
    { entityId, command := -1, INVALID; }

    method SetEntityId(e: Int32)
      modifies this`entityId
      ensures Model() == old(Model()).WithEntity(e)
    { if e >= 0 { entityId := e; } }

    method SetCommand(c: Int8)
      modifies this`command
      ensures command == if old(command) == INVALID then c else old(command)
    { if command == INVALID { command := c; } }

    method Serialize(qt: Qt) returns (stream: seq<Byte>)
      ensures stream == Model().Serialize(qt)
    {
      stream := PutInt8(command);
      stream := stream + PutInt(entityId);
    }

    method Deserialize(qt: Qt, bytes: seq<Byte>)
      modifies this
      ensures Model() == old(Model()).Deserialize(qt, bytes)
    {
      var (c, b1) := GetInt8(bytes);
      var (e, _) := GetInt(b1);
      command := c;
      SetEntityId(e);
    }
  }

  class IntrospectionData {
    var entityId: Int32
    var componentValues: map<string, Value>
    var rpcNames: seq<string>

    ghost function Model(): Data
      reads this
    { Data.Introspection(entityId, componentValues, rpcNames) }

    constructor ()
      ensures Model() == New(INTROSPECTION).value
    { entityId, componentValues, rpcNames := -1, map[], []; }

    method SetEntityId(e: Int32)
      modifies this`entityId
      ensures Model() == old(Model()).WithEntity(e)
    { if e >= 0 { entityId := e; } }

    method Serialize(qt: Qt) returns (stream: seq<Byte>)
      ensures stream == Model().Serialize(qt)
    {
      stream := PutInt(entityId);
      stream := stream + qt.values.put(componentValues);
      stream := stream + qt.names.put(rpcNames);
      Regroup(PutInt(entityId), qt.values.put(componentValues), qt.names.put(rpcNames));
    }

    method Deserialize(qt: Qt, bytes: seq<Byte>)
      modifies this
      ensures Model() == old(Model()).Deserialize(qt, bytes)
    {
      var (e, b1) := GetInt(bytes);
      var (vs, b2) := qt.values.get(b1);
      componentValues := vs;
      var (ns, _) := qt.names.get(b2);
      rpcNames := ns;
      SetEntityId(e);
    }
  }

  class ErrorData {
    var entityId: Int32
    var originalDataType: Int32
    var originalData: Option<Array>
    var errorDescription: string

    ghost function Model(): Data
      reads this
    { Data.Error(entityId, originalDataType, originalData, errorDescription) }

    constructor ()
      ensures Model() == New(ERROR).value
    { entityId, originalDataType, originalData, errorDescription := -1, 0, None, ""; }

    method SetEntityId(e: Int32)
      modifies this`entityId
      ensures Model() == old(Model()).WithEntity(e)
    { if e >= 0 { entityId := e; } }

    /** Errors are not cascaded. */
    method SetOriginalData(qt: Qt, d: Data)
      requires |d.Serialize(qt)| < NULL_LENGTH
      modifies this`originalDataType, this`originalData
      ensures Model() == if d.Type() == ERROR then old(Model())
        else Data.Error(old(entityId), d.Type(), Some(d.Serialize(qt)), old(errorDescription))
    {
      if d.Type() != ERROR {
        originalDataType := d.Type();
        originalData := Some(d.Serialize(qt));
      }
    }

    method Serialize(qt: Qt) returns (stream: seq<Byte>)
      ensures stream == Model().Serialize(qt)
    {
      var t, o, d, e := PutInt(originalDataType), PutBytes(originalData), qt.text.put(errorDescription), PutInt(entityId);
      stream := t;
      stream := stream + o;
      stream := stream + d;
      stream := stream + e;
      Regroup(t, o, d);
      Regroup(t, o + d, e);
      Regroup(o, d, e);
    }

    method Deserialize(qt: Qt, bytes: seq<Byte>)
      modifies this
      ensures Model() == old(Model()).Deserialize(qt, bytes)
    {
      var (t, b1) := GetInt(bytes);
      originalDataType := t;
      var (original, b2) := GetBytes(b1);
      originalData := original;
      var (description, b3) := qt.text.get(b2);
      errorDescription := description;
      var (e, _) := GetInt(b3);
      SetEntityId(e);
    }
  }

  class RemoteProcedureData {
    var entityId: Int32
    var command: Int8
    var procedureName: string
    var invokationData: map<string, Value>

    ghost function Model(): Data
      reads this
    { Data.Rpc(entityId, command, procedureName, invokationData) }

    constructor ()
      ensures Model() == New(RPC).value
    { entityId, command, procedureName, invokationData := -1, INVALID, "", map[]; }

    method SetEntityId(e: Int32)
      modifies this`entityId
      ensures Model() == old(Model()).WithEntity(e)
    { if e >= 0 { entityId := e; } }

    method Serialize(qt: Qt) returns (stream: seq<Byte>)
      ensures stream == Model().Serialize(qt)
    {
      var n, e, d := qt.text.put(procedureName), PutInt(entityId), qt.values.put(invokationData);
      stream := PutInt8(command);
      stream := stream + n;
      stream := stream + e;
      stream := stream + d;
      Regroup(PutInt8(command), n, e);
      Regroup(PutInt8(command), n + e, d);
      Regroup(n, e, d);
    }

    method Deserialize(qt: Qt, bytes: seq<Byte>)
      modifies this
      ensures Model() == old(Model()).Deserialize(qt, bytes)
    {
      var (c, b1) := GetInt8(bytes);
      command := c;
      var (name, b2) := qt.text.get(b1);
      procedureName := name;
      var (e, b3) := GetInt(b2);
      var (vs, _) := qt.values.get(b3);
      invokationData := vs;
      SetEntityId(e);
    }
  }
}
