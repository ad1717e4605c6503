/**
 * The institution gate in front of the academic dashboard: step 1 picks an
 * institution, step 2 asks for a passkey. A blank passkey is ignored; a
 * passkey of ASCII digits (checked untrimmed) is recorded in storage and
 * handed to the page; anything else is refused.
 */
module Institution {
  import opened Wrappers
  import opened Storage
  import opened Text

  /** What a press of "Access Dashboard" does with a passkey. */
  datatype Outcome = Ignored | Rejected | Accepted

  /** The passkey handler's decision: the trim guard first, then `/^\d+$/` on the untrimmed text. */
  function PasskeyOutcome(passkey: string): (o: Outcome)
    ensures o == Ignored <==> IsBlank(passkey)
    ensures o == Accepted <==> AllDigits(passkey)
  {
    if IsBlank(passkey) then
      assert !AllDigits(passkey) by {
        if AllDigits(passkey) {
          DigitsAreNotBlank(passkey);
        }
      }
      Ignored
    else if AllDigits(passkey) then Accepted
    else Rejected
  }

  /** A passkey of digits is never blank, so the trim guard never hides an acceptable one. */
  lemma {:induction false} DigitsAreNotBlank(passkey: string)
    requires AllDigits(passkey)
    ensures !IsBlank(passkey)
  {
    assert !IsWhitespace(passkey[0]);
  }

  /** Surrounding spaces pass the trim guard but fail the digit test. */
  lemma SpacedPasskeyRejected()
    ensures !IsBlank(" 123") && PasskeyOutcome(" 123") == Rejected
  {
    var p := " 123";
    assert p[0] == ' ' && p[1] == '1';
  }

  /** The selector's form. */
  class InstitutionSelector {
    var selectedInstitution: string
    var passkey: string
    var step: int
    const storage: BrowserStorage

    constructor(storage: BrowserStorage)
      ensures this.storage == storage
      ensures selectedInstitution == "" && passkey == "" && step == 1
    {
      this.storage := storage;
      selectedInstitution, passkey, step := "", "", 1;
    }

    /** `handleInstitutionSelect`: records the choice and moves to the passkey step. */
    method HandleInstitutionSelect(institution: string)
      modifies this`selectedInstitution, this`step
      ensures selectedInstitution == institution && step == 2
    {
      selectedInstitution, step := institution, 2;
    }

    /** Back: returns to step 1, keeping the selection and the typed passkey. */
    method Back()
      modifies this`step
      ensures step == 1
    {
      step := 1;
    }

    /** The passkey input's change handler. */
    method SetPasskey(typed: string)
      modifies this`passkey
      ensures passkey == typed
    {
      passkey := typed;
    }

    /**
     * `handlePasskeySubmit`: on acceptance writes both keys and returns the
     * callback's arguments; otherwise stores nothing and calls nothing.
     */
    method HandlePasskeySubmit() returns (callback: Option<(string, string)>)
      modifies storage
      ensures PasskeyOutcome(passkey) == Accepted ==>
        && callback == Some((selectedInstitution, passkey))
        && storage.items == old(storage.items)[InstitutionKey := Text(selectedInstitution)][PasskeyKey := Text(passkey)]
      ensures PasskeyOutcome(passkey) != Accepted ==>
        callback == None && storage.items == old(storage.items)
    {
      callback := None;
      if !IsBlank(passkey) {
        if AllDigits(passkey) {
          storage.SetItem(InstitutionKey, Text(selectedInstitution));
          storage.SetItem(PasskeyKey, Text(passkey));
          callback := Some((selectedInstitution, passkey));
        }
      }
    }

    /** The "Access Dashboard" button's disabled state, computed from the trimmed passkey. */
    function SubmitDisabled(): (disabled: bool)
      reads this
      ensures disabled <==> PasskeyOutcome(passkey) == Ignored
    {
      Trim(passkey) == ""
    }
  }

  /**
   * An accepted passkey for a chosen institution leaves storage registered,
   * so the academic dashboard opens again on its next mount.
   */
  lemma AcceptedRegisters(items: Items, institution: string, passkey: string)
    requires institution != "" && PasskeyOutcome(passkey) == Accepted
    ensures Registered(items[InstitutionKey := Text(institution)][PasskeyKey := Text(passkey)])
  {
    assert passkey != [];
  }
}
