/** The selection logic of the generic combo box
    (src/components/ui/ComboBox.tsx): which key the box shows as selected,
    and which option a picked key reports back. Options are of any type;
    `idOf` reads an option's `id`. Rendering is not modelled. */
module ComboBox {
  import opened Wrappers

  /** An option id or a picked key: a number or a string. */
  datatype Id = NumId(n: real) | StrId(s: string)

  /** `String(id)`; how JavaScript prints a number is the parameter `show`. */
  function KeyString(id: Id, show: real -> string): string {
    match id
    case NumId(n) => show(n)
    case StrId(s) => s
  }

  /** JavaScript truthiness of an id: `0` and `""` are falsy. */
  predicate IdTruthy(id: Id) {
    match id
    case NumId(n) => n != 0.0
    case StrId(s) => s != ""
  }

  /** `selectedKey={value?.id ? String(value.id) : null}`. */
  function SelectedKey<T>(value: Option<T>, idOf: T -> Id, show: real -> string): (k: Option<string>)
    ensures k.Some? <==> value.Some? && IdTruthy(idOf(value.value))
    ensures k.Some? ==> k.value == KeyString(idOf(value.value), show)
  {
    if value.Some? && IdTruthy(idOf(value.value)) then Some(KeyString(idOf(value.value), show)) else None
  }

  /** The position of the first option whose `String(id)` is `key`, if any. */
  function FirstWithKey<T>(options: seq<T>, idOf: T -> Id, key: string, show: real -> string): (r: Option<nat>)
    ensures r.Some? ==> r.value < |options| && KeyString(idOf(options[r.value]), show) == key
    ensures r.Some? ==> forall j | 0 <= j < r.value :: KeyString(idOf(options[j]), show) != key
    ensures r.None? ==> forall j | 0 <= j < |options| :: KeyString(idOf(options[j]), show) != key
  {
    if |options| == 0 then None
    else if KeyString(idOf(options[0]), show) == key then Some(0)
    else
      match FirstWithKey(options[1..], idOf, key, show)
      case None => None
      case Some(i) => Some(i + 1)
  }

  /** The `onSelectionChange` handler: a falsy key reports `null`; otherwise
      the first option whose `String(id)` equals `String(key)`, or `null`
      when none does. */
  function OnSelectionChange<T>(options: seq<T>, idOf: T -> Id, key: Option<Id>, show: real -> string): (r: Option<T>)
    ensures key.None? || !IdTruthy(key.value) ==> r.None?
    ensures r.Some? ==> exists i | 0 <= i < |options| :: options[i] == r.value
    ensures r.Some? ==> KeyString(idOf(r.value), show) == KeyString(key.value, show)
    ensures r.Some? ==> exists i | 0 <= i < |options| ::
      && options[i] == r.value
      && forall j | 0 <= j < i :: KeyString(idOf(options[j]), show) != KeyString(key.value, show)
    ensures r.None? && key.Some? && IdTruthy(key.value) ==>
      forall j | 0 <= j < |options| :: KeyString(idOf(options[j]), show) != KeyString(key.value, show)
  {
    if key.None? || !IdTruthy(key.value) then None
    else
      match FirstWithKey(options, idOf, KeyString(key.value, show), show)
      case None => None
      case Some(i) => Some(options[i])
  }

  /** No two options print to the same key. */
  predicate KeysDistinct<T>(options: seq<T>, idOf: T -> Id, show: real -> string) {
    forall i, j | 0 <= i < j < |options| :: KeyString(idOf(options[i]), show) != KeyString(idOf(options[j]), show)
  }

  /** Picking a list item reports its key `String(item.id)`; when keys are
      distinct and non-empty that key leads back to the same option. */
  lemma PickRoundTrip<T>(options: seq<T>, idOf: T -> Id, show: real -> string, i: nat)
    requires i < |options| && KeysDistinct(options, idOf, show)
    requires KeyString(idOf(options[i]), show) != ""
    ensures OnSelectionChange(options, idOf, Some(StrId(KeyString(idOf(options[i]), show))), show) == Some(options[i])
  {
    var key := KeyString(idOf(options[i]), show);
    var r := FirstWithKey(options, idOf, key, show);
    assert r.Some?;
  }

  /** `isInvalid={!!errorMessage}`. */
  function IsInvalid(errorMessage: Option<string>): (b: bool)
    ensures b ==> errorMessage.Some?
    ensures errorMessage == Some("") ==> !b
    ensures errorMessage.Some? && |errorMessage.value| > 0 ==> b
  {
    errorMessage.Some? && errorMessage.value != ""
  }
}
