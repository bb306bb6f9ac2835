/** The persisted settings: the key/value store, and the settings view
    model that normalises what it reads and writes every change back. */
module Settings {
  import opened Common

  /** A stored preference value. */
  datatype StoredValue = IntValue(i: int) | StringValue(s: string)

  const ModelSelectionKey := "modelSelection"
  const ModelStoragePathKey := "modelStoragePath"
  const ServerPortKey := "serverPort"
  const DefaultPort: int := 8080

  /** `integer(forKey:)`: the stored integer, 0 when the key is missing. */
  function IntegerFor(values: map<string, StoredValue>, key: string): int {
    if key in values && values[key].IntValue? then values[key].i else 0
  }

  /** `string(forKey:)`: the stored string, nil when the key is missing. */
  function StringFor(values: map<string, StoredValue>, key: string): Option<string> {
    if key in values && values[key].StringValue? then Some(values[key].s) else None
  }

  /** The user-defaults store shared by the settings screen and the server. */
  class Defaults {
    var values: map<string, StoredValue>

    constructor (initial: map<string, StoredValue>)
      ensures values == initial
    {
      values := initial;
    }

    method Set(key: string, value: StoredValue)
      modifies this
      ensures values == old(values)[key := value]
    {
      values := values[key := value];
    }
  }

  datatype ModelSelectionOption = BuiltIn

  function RawValue(o: ModelSelectionOption): string {
    match o
    case BuiltIn => "Built-in Foundation Model"
  }

  /** `ModelSelectionOption.id`. */
  function Id(o: ModelSelectionOption): string {
    RawValue(o)
  }

  /** `ModelSelectionOption(rawValue:)`. */
  function SelectionFromRawValue(s: string): Option<ModelSelectionOption> {
    if s == RawValue(BuiltIn) then Some(BuiltIn) else None
  }

  /** The selection `init` restores: the stored raw value, or built-in's when
      none is stored, mapped back to an option, built-in when unrecognised. */
  function InitialSelection(values: map<string, StoredValue>): ModelSelectionOption {
    var raw := StringFor(values, ModelSelectionKey).GetOr(RawValue(BuiltIn));
    SelectionFromRawValue(raw).GetOr(BuiltIn)
  }

  /** The port `init` restores: the stored one when above 0, else 8080. */
  function InitialPort(values: map<string, StoredValue>): int {
    var saved := IntegerFor(values, ServerPortKey);
    if saved > 0 then saved else DefaultPort
  }

  lemma SelectionRawValueRoundTrip(o: ModelSelectionOption)
    ensures SelectionFromRawValue(RawValue(o)) == Some(o)
    ensures Id(o) == RawValue(o)
  {
  }

  /** A missing or unrecognised stored selection falls back to built-in; a
      recognised one is restored. */
  lemma InitialSelectionRule(values: map<string, StoredValue>)
    ensures StringFor(values, ModelSelectionKey).None? ==> InitialSelection(values) == BuiltIn
    ensures (StringFor(values, ModelSelectionKey).Some?
             && SelectionFromRawValue(StringFor(values, ModelSelectionKey).value).None?) ==>
              InitialSelection(values) == BuiltIn
    ensures forall o :: StringFor(values, ModelSelectionKey) == Some(RawValue(o)) ==> InitialSelection(values) == o
  {
  }

  /** The restored port is the stored value when positive, 8080 otherwise;
      it is always positive. */
  lemma InitialPortRule(values: map<string, StoredValue>)
    ensures IntegerFor(values, ServerPortKey) > 0 ==> InitialPort(values) == IntegerFor(values, ServerPortKey)
    ensures IntegerFor(values, ServerPortKey) <= 0 ==> InitialPort(values) == DefaultPort
    ensures InitialPort(values) > 0
  {
  }

  class SettingsViewModel {
    var modelSelection: ModelSelectionOption
    var serverPort: int
    const defaults: Defaults

    /** `init`: reads and normalises the stored settings; observers do not
        fire during initialisation, so nothing is written back. */
    constructor (defaults: Defaults)
      ensures this.defaults == defaults
      ensures modelSelection == InitialSelection(defaults.values)
      ensures serverPort == InitialPort(defaults.values)
    {
      this.defaults := defaults;
      var selectionRawValue := StringFor(defaults.values, ModelSelectionKey).GetOr(RawValue(BuiltIn));
      modelSelection := SelectionFromRawValue(selectionRawValue).GetOr(BuiltIn);
      var savedPort := IntegerFor(defaults.values, ServerPortKey);
      serverPort := if savedPort > 0 then savedPort else DefaultPort;
    }

    /** Assigning `modelSelection` stores its raw value under "modelSelection". */
    method SetModelSelection(o: ModelSelectionOption)
      modifies this, defaults
      ensures modelSelection == o && serverPort == old(serverPort)
      ensures defaults.values == old(defaults.values)[ModelSelectionKey := StringValue(RawValue(o))]
    {
      modelSelection := o;
      defaults.Set(ModelSelectionKey, StringValue(RawValue(o)));
    }

    /** Assigning `serverPort` stores it under "serverPort", the key the server reads. */
    method SetServerPort(port: int)
      modifies this, defaults
      ensures serverPort == port && modelSelection == old(modelSelection)
      ensures defaults.values == old(defaults.values)[ServerPortKey := IntValue(port)]
    {
      serverPort := port;
      defaults.Set(ServerPortKey, IntValue(port));
    }
  }

  /** What is written is what a later `init` reads back (positive ports and
      any selection), and writing one key leaves what `init` restores from the
      other unchanged. */
  lemma SettingsPersist(values: map<string, StoredValue>, port: int, o: ModelSelectionOption)
    ensures InitialPort(values[ServerPortKey := IntValue(port)]) == if port > 0 then port else DefaultPort
    ensures InitialSelection(values[ModelSelectionKey := StringValue(RawValue(o))]) == o
    ensures IntegerFor(values[ModelSelectionKey := StringValue(RawValue(o))], ServerPortKey)
              == IntegerFor(values, ServerPortKey)
    ensures InitialPort(values[ModelSelectionKey := StringValue(RawValue(o))]) == InitialPort(values)
    ensures InitialSelection(values[ServerPortKey := IntValue(port)]) == InitialSelection(values)
  {
  }
}
