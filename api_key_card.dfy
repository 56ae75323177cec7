/** One key's card: the masked or raw key text, the visibility toggle, and
    which actions the key's status offers. */
module ApiKeyCard {
  import opened JsBuiltins
  import opened DataUtils
  import opened ApiKeys

  /** The bullet `•` the mask is made of. */
  const MaskChar: char := '\U{2022}'

  /** `key.slice(0, 8) + '•'.repeat(20) + key.slice(-4)`: the key's first
      eight characters (or all of a shorter key), twenty bullets, then the
      key's last four characters (or all of a shorter key). */
  function MaskKey(key: string): (m: string)
    ensures |m| == Min(8, |key|) + 20 + Min(4, |key|)
    ensures m[..Min(8, |key|)] == key[..Min(8, |key|)]
    ensures m[|m| - Min(4, |key|)..] == key[|key| - Min(4, |key|)..]
    ensures forall i :: Min(8, |key|) <= i < Min(8, |key|) + 20 ==> m[i] == MaskChar
    ensures MaskChar in m
  {
    SliceFirst(key, 8);
    SliceLast(key, 4);
    var m := Slice(key, 0, 8) + Repeat(MaskChar, 20) + SliceFrom(key, -4);
    assert m[Min(8, |key|)] == MaskChar;
    m
  }

  /** A key of at least twelve characters masks to 32 characters that keep
      its first eight, so a generated key keeps its `sk_live_` prefix. */
  lemma MaskedLongKey(key: string)
    requires |key| >= 12
    ensures |MaskKey(key)| == 32
    ensures MaskKey(key)[..8] == key[..8]
    ensures key[..8] == "sk_live_" ==> MaskKey(key)[..8] == "sk_live_"
  {
  }

  /** `isVisible ? apiKey.key : maskKey(apiKey.key)`. */
  function ShownKey(key: string, isVisible: bool): string
  {
    if isVisible then key else MaskKey(key)
  }

  /** For a key without bullets (every generated key), the shown text is the
      raw key exactly when the key is visible, and holds a bullet exactly
      when it is hidden. */
  lemma ShownKeyIsRawIffVisible(key: string, isVisible: bool)
    requires MaskChar !in key
    ensures ShownKey(key, isVisible) == key <==> isVisible
    ensures MaskChar in ShownKey(key, isVisible) <==> !isVisible
  {
    if !isVisible {
      assert MaskChar in MaskKey(key);
    }
  }

  datatype Action = Regenerate | Revoke | Delete

  /** A rendered action button. */
  datatype ActionButton = ActionButton(action: Action, disabled: bool)

  /** The card's buttons, in order: Regenerate and Revoke only for an active
      key, Delete always, each disabled while an operation is in progress. */
  function ActionButtons(status: KeyStatus, isOperating: bool): (buttons: seq<ActionButton>)
    ensures |buttons| >= 1 && buttons[|buttons| - 1].action == Delete
    ensures forall i :: 0 <= i < |buttons| ==> buttons[i].disabled == isOperating
    ensures (exists i :: 0 <= i < |buttons| && buttons[i].action == Regenerate) <==> status == Active
    ensures (exists i :: 0 <= i < |buttons| && buttons[i].action == Revoke) <==> status == Active
  {
    var delete := [ActionButton(Delete, isOperating)];
    if status == Active then
      var buttons := [ActionButton(Regenerate, isOperating), ActionButton(Revoke, isOperating)] + delete;
      assert buttons[0].action == Regenerate && buttons[1].action == Revoke;
      buttons
    else
      delete
  }

  /** A button's enabled actions: no action can be taken while an operation
      is in progress, and a revoked key can only be deleted. */
  lemma EnabledActions(status: KeyStatus, isOperating: bool, i: nat)
    requires i < |ActionButtons(status, isOperating)|
    ensures !ActionButtons(status, isOperating)[i].disabled ==> !isOperating
    ensures status == Revoked ==> ActionButtons(status, isOperating)[i].action == Delete
  {
  }

  /** The card's state: whether the raw key is shown. */
  class KeyCard {
    var isVisible: bool

    constructor()
      ensures !isVisible
    {
      isVisible := false;
    }

    /** `toggleKeyVisibility()`; two toggles restore the visibility. */
    method ToggleKeyVisibility()
      modifies this
      ensures isVisible == !old(isVisible)
    {
      isVisible := !isVisible;
    }

    /** The text in the card's code element. */
    function Shown(apiKey: ApiKey): string
      reads this
    {
      ShownKey(apiKey.key, isVisible)
    }
  }
}
