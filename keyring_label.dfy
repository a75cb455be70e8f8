/**
 * `KeyRingLabel`: a component with one state cell, `label`, that starts out
 * null and is overwritten by an effect whenever the `keyring` prop changes,
 * but only when the keyring's `type` is one of five recognised tags.
 */
module KeyringLabel {
  import opened Wrappers
  import opened Messages

  /** The one tag the effect compares with as a literal. */
  const SimpleKeyPair := "Simple Key Pair"

  /**
   * The `KEYRING_TYPES` constants the effect compares with. Their values are
   * not part of this model, so they are a parameter of the component.
   */
  datatype KeyringTypes = KeyringTypes(qr: string, trezor: string, ledger: string, lattice: string)

  /** The five tags the effect tests are pairwise distinct. */
  predicate Distinct(types: KeyringTypes) {
    && types.qr != SimpleKeyPair && types.qr != types.trezor && types.qr != types.ledger && types.qr != types.lattice
    && SimpleKeyPair != types.trezor && SimpleKeyPair != types.ledger && SimpleKeyPair != types.lattice
    && types.trezor != types.ledger && types.trezor != types.lattice
    && types.ledger != types.lattice
  }

  /** A value passed to `setLabel`: a localised message or a literal string. */
  datatype Label = Localized(msg: Message) | Literal(text: string)

  /** The `keyring` prop as the effect sees it: absent, or an object whose `type` may be undefined. */
  datatype KeyringProp = NoKeyring | KeyringOf(keyType: Option<string>)

  /** A tag the if/else-if chain recognises. */
  predicate Recognised(types: KeyringTypes, keyType: string) {
    keyType in {types.qr, SimpleKeyPair, types.trezor, types.ledger, types.lattice}
  }

  /**
   * The label the effect's if/else-if chain passes to `setLabel`, or None
   * when no branch calls it: only a present keyring with a recognised type
   * sets a label, and it is always one of the five.
   */
  function LabelFor(types: KeyringTypes, keyring: KeyringProp): (r: Option<Label>)
    ensures r.Some? <==> keyring.KeyringOf? && keyring.keyType.Some? && Recognised(types, keyring.keyType.value)
    ensures r.Some? ==> r.value in {Localized(Message("hardware", [])), Localized(Message("imported", [])),
                                    Literal("Trezor"), Literal("Ledger"), Literal("Lattice")}
  {
    match keyring
    case NoKeyring => None
    case KeyringOf(keyType) =>
      if keyType == Some(types.qr) then Some(Localized(Message("hardware", [])))
      else if keyType == Some(SimpleKeyPair) then Some(Localized(Message("imported", [])))
      else if keyType == Some(types.trezor) then Some(Literal("Trezor"))
      else if keyType == Some(types.ledger) then Some(Literal("Ledger"))
      else if keyType == Some(types.lattice) then Some(Literal("Lattice"))
      else None
  }

  /**
   * One run of the effect: the label is overwritten when a tag matched and
   * otherwise kept, so once set it is never reset to null.
   */
  function EffectStep(types: KeyringTypes, current: Option<Label>, keyring: KeyringProp): (next: Option<Label>)
    ensures LabelFor(types, keyring).None? ==> next == current
    ensures LabelFor(types, keyring).Some? ==> next == LabelFor(types, keyring)
    ensures current.Some? ==> next.Some?
  {
    match LabelFor(types, keyring)
    case Some(l) => Some(l)
    case None => current
  }

  /** The label after the effect has run once for each keyring of `runs`, in order. */
  function LabelAfterRuns(types: KeyringTypes, init: Option<Label>, runs: seq<KeyringProp>): Option<Label>
    decreases |runs|
  {
    if runs == [] then init
    else EffectStep(types, LabelAfterRuns(types, init, runs[..|runs| - 1]), runs[|runs| - 1])
  }

  /** Tags are tested in a fixed order and the first match wins. */
  lemma LabelForTestsInOrder(types: KeyringTypes, keyType: string)
    ensures keyType == types.qr ==>
      LabelFor(types, KeyringOf(Some(keyType))) == Some(Localized(Message("hardware", [])))
    ensures keyType != types.qr && keyType == SimpleKeyPair ==>
      LabelFor(types, KeyringOf(Some(keyType))) == Some(Localized(Message("imported", [])))
    ensures keyType != types.qr && keyType != SimpleKeyPair && keyType == types.trezor ==>
      LabelFor(types, KeyringOf(Some(keyType))) == Some(Literal("Trezor"))
    ensures keyType != types.qr && keyType != SimpleKeyPair && keyType != types.trezor && keyType == types.ledger ==>
      LabelFor(types, KeyringOf(Some(keyType))) == Some(Literal("Ledger"))
    ensures keyType != types.qr && keyType != SimpleKeyPair && keyType != types.trezor && keyType != types.ledger &&
            keyType == types.lattice ==>
      LabelFor(types, KeyringOf(Some(keyType))) == Some(Literal("Lattice"))
  {
  }

  /** With distinct tags, each tag sets its own label, and the five labels differ. */
  lemma LabelForDistinctTags(types: KeyringTypes)
    requires Distinct(types)
    ensures LabelFor(types, KeyringOf(Some(types.qr))) == Some(Localized(Message("hardware", [])))
    ensures LabelFor(types, KeyringOf(Some(SimpleKeyPair))) == Some(Localized(Message("imported", [])))
    ensures LabelFor(types, KeyringOf(Some(types.trezor))) == Some(Literal("Trezor"))
    ensures LabelFor(types, KeyringOf(Some(types.ledger))) == Some(Literal("Ledger"))
    ensures LabelFor(types, KeyringOf(Some(types.lattice))) == Some(Literal("Lattice"))
  {
  }

  /** Once a label has been set, no later run of the effect clears it. */
  lemma {:induction false} LabelNeverResets(types: KeyringTypes, init: Option<Label>, runs: seq<KeyringProp>)
    requires init.Some?
    ensures LabelAfterRuns(types, init, runs).Some?
  {
    if runs != [] {
      LabelNeverResets(types, init, runs[..|runs| - 1]);
    }
  }

  /** If no run saw a recognised keyring, the label is still the initial one. */
  lemma {:induction false} LabelUnchangedWithoutMatch(types: KeyringTypes, init: Option<Label>, runs: seq<KeyringProp>)
    requires forall i :: 0 <= i < |runs| ==> LabelFor(types, runs[i]).None?
    ensures LabelAfterRuns(types, init, runs) == init
  {
    if runs != [] {
      LabelUnchangedWithoutMatch(types, init, runs[..|runs| - 1]);
    }
  }

  /**
   * The label is the one set by the last run that saw a recognised keyring:
   * later absent or unrecognised keyrings leave that (possibly stale) label.
   */
  lemma {:induction false} LabelIsLastMatch(types: KeyringTypes, init: Option<Label>, runs: seq<KeyringProp>, k: nat)
    requires k < |runs| && LabelFor(types, runs[k]).Some?
    requires forall j :: k < j < |runs| ==> LabelFor(types, runs[j]).None?
    ensures LabelAfterRuns(types, init, runs) == LabelFor(types, runs[k])
  {
    if k < |runs| - 1 {
      var front := runs[..|runs| - 1];
      assert forall j :: k < j < |front| ==> front[j] == runs[j];
      LabelIsLastMatch(types, init, front, k);
    }
  }

  /** A keyring object; the effect depends on its reference, not on its contents. */
  class Keyring {
    var keyType: Option<string>

    constructor (keyType: Option<string>)
      ensures this.keyType == keyType
    {
      this.keyType := keyType;
    }
  }

  /** The `keyring` prop as the effect reads it. */
  function Snapshot(keyring: Keyring?): KeyringProp
    reads keyring
  {
    if keyring == null then NoKeyring else KeyringOf(keyring.keyType)
  }

  /** The text a label shows, given the localisation function `t`. */
  function LabelText(l: Label, t: Message -> string): string {
    match l
    case Localized(m) => t(m)
    case Literal(s) => s
  }

  /** One mounted `KeyRingLabel` component and its state. */
  class KeyRingLabel {
    const types: KeyringTypes
    /** The localisation function from `useI18nContext`, fixed while the component is mounted. */
    const t: Message -> string
    /** The `label` state cell (`label` is a Dafny keyword). */
    var labelState: Option<Label>
    /** The `[props.keyring]` dependency of the last effect run; None before the first run. */
    var lastKeyring: Option<Keyring?>
    /** The keyrings every effect run so far has seen, in order. */
    ghost var effectRuns: seq<KeyringProp>

    /** The label is what the recorded effect runs produce from the initial null. */
    ghost predicate Valid()
      reads this
    {
      labelState == LabelAfterRuns(types, None, effectRuns)
    }

    /** `useState(null)`: mounting starts with no label and no effect run. */
    constructor (types: KeyringTypes, t: Message -> string)
      ensures Valid()
      ensures this.types == types && this.t == t && labelState == None && lastKeyring == None && effectRuns == []
    {
      this.types := types;
      this.t := t;
      labelState := None;
      lastKeyring := None;
      effectRuns := [];
    }

    /**
     * The effect body: `setLabel` is called only when the keyring is present
     * and its type matches a tag; otherwise the label is left as it was.
     */
    method OnKeyringChange(keyring: Keyring?)
      requires Valid()
      modifies this`labelState, this`effectRuns
      ensures Valid()
      ensures effectRuns == old(effectRuns) + [Snapshot(keyring)]
      ensures labelState == EffectStep(types, old(labelState), Snapshot(keyring))
      ensures LabelFor(types, Snapshot(keyring)).None? ==> labelState == old(labelState)
    {
      if keyring != null {
        var keyType := keyring.keyType;
        if keyType == Some(types.qr) {
          labelState := Some(Localized(Message("hardware", [])));
        } else if keyType == Some(SimpleKeyPair) {
          labelState := Some(Localized(Message("imported", [])));
        } else if keyType == Some(types.trezor) {
          labelState := Some(Literal("Trezor"));
        } else if keyType == Some(types.ledger) {
          labelState := Some(Literal("Ledger"));
        } else if keyType == Some(types.lattice) {
          labelState := Some(Literal("Lattice"));
        }
      }
      effectRuns := effectRuns + [Snapshot(keyring)];
      assert effectRuns[..|effectRuns| - 1] == old(effectRuns);
    }

    /**
     * A render with the given prop and the effect phase after it: the
     * effect runs on the first render and whenever the keyring reference
     * differs from the last run's, never for a change inside the same object.
     */
    method Render(keyring: Keyring?)
      requires Valid()
      modifies this`labelState, this`lastKeyring, this`effectRuns
      ensures Valid()
      ensures lastKeyring == Some(keyring)
      ensures old(lastKeyring) == Some(keyring) ==> labelState == old(labelState) && effectRuns == old(effectRuns)
      ensures old(lastKeyring) != Some(keyring) ==>
        labelState == EffectStep(types, old(labelState), Snapshot(keyring)) &&
        effectRuns == old(effectRuns) + [Snapshot(keyring)]
    {
      if lastKeyring != Some(keyring) {
        OnKeyringChange(keyring);
        lastKeyring := Some(keyring);
      }
    }

    /**
     * What the component renders: the label's text, exactly when it is
     * truthy. The component's `t` is fixed, so translating the stored
     * message here gives the text the effect stored.
     */
    function View(): (shown: Option<string>)
      reads this
      ensures shown.Some? <==> labelState.Some? && LabelText(labelState.value, t) != ""
      ensures shown.Some? ==> shown.value == LabelText(labelState.value, t)
    {
      if labelState.Some? && LabelText(labelState.value, t) != "" then Some(LabelText(labelState.value, t)) else None
    }
  }

  /** Before a recognised keyring has been seen, nothing is rendered. */
  lemma NothingShownBeforeMatch(c: KeyRingLabel)
    requires c.Valid()
    requires forall i :: 0 <= i < |c.effectRuns| ==> LabelFor(c.types, c.effectRuns[i]).None?
    ensures c.View() == None
  {
    LabelUnchangedWithoutMatch(c.types, None, c.effectRuns);
  }

  /** A hardware-wallet literal label is always rendered. */
  lemma LiteralLabelShown(c: KeyRingLabel)
    requires c.labelState in {Some(Literal("Trezor")), Some(Literal("Ledger")), Some(Literal("Lattice"))}
    ensures c.View() == Some(c.labelState.value.text)
  {
  }
}
