/** The lead-capture form shown after a win (components/DataModal.tsx): a draft of
    the player's preferences, a consent checkbox that gates submission, and a skip
    path that bypasses the gate. */
module DataModal {

  /** The draft the form edits: the fields of a user preference it initialises. */
  datatype Draft = Draft(
    fullName: string,
    email: string,
    phone: string,
    address: string,
    gender: string,
    size: string,
    style: string,
    dob: string,
    age: int)

  /** The draft the form opens with. */
  const InitialDraft: Draft :=
    Draft("", "", "", "", "Other", "M", "Regular Fit", "", 25)

  /** The fields the form lets the player edit (gender and age have no control). */
  datatype Field = FullName | Dob | Phone | Email | Address | Size | Style

  /** The current value of an editable field. */
  function Get(d: Draft, f: Field): string
  {
    match f
    case FullName => d.fullName
    case Dob => d.dob
    case Phone => d.phone
    case Email => d.email
    case Address => d.address
    case Size => d.size
    case Style => d.style
  }

  /** One change event: the draft with field f replaced by v and nothing else changed. */
  function Edit(d: Draft, f: Field, v: string): (e: Draft)
    ensures Get(e, f) == v
    ensures forall g :: g != f ==> Get(e, g) == Get(d, g)
    ensures e.gender == d.gender && e.age == d.age
  {
    match f
    case FullName => d.(fullName := v)
    case Dob => d.(dob := v)
    case Phone => d.(phone := v)
    case Email => d.(email := v)
    case Address => d.(address := v)
    case Size => d.(size := v)
    case Style => d.(style := v)
  }

  /** A sequence of change events applied in order to a draft. */
  function Replay(d: Draft, edits: seq<(Field, string)>): Draft
    decreases |edits|
  {
    if edits == [] then d else Replay(Edit(d, edits[0].0, edits[0].1), edits[1..])
  }

  /** The value a field holds after a run of edits: the last value typed into it,
      or its starting value if it was never edited. */
  function LastValue(start: string, f: Field, edits: seq<(Field, string)>): string
    decreases |edits|
  {
    if edits == [] then start
    else if edits[|edits| - 1].0 == f then edits[|edits| - 1].1
    else LastValue(start, f, edits[..|edits| - 1])
  }

  /** After any run of edits, every field holds the last value written to it, and
      the fields without a control keep their values. */
  lemma {:induction false} ReplayLastEditWins(d: Draft, edits: seq<(Field, string)>, f: Field)
    ensures Get(Replay(d, edits), f) == LastValue(Get(d, f), f, edits)
    ensures Replay(d, edits).gender == d.gender && Replay(d, edits).age == d.age
    decreases |edits|
  {
    if edits != [] {
      var n := |edits|;
      ReplaySnoc(d, edits[..n - 1], edits[n - 1]);
      assert edits[..n - 1] + [edits[n - 1]] == edits;
      ReplayLastEditWins(d, edits[..n - 1], f);
    }
  }

  /** Replaying one more edit is applying it to the replayed draft. */
  lemma {:induction false} ReplaySnoc(d: Draft, edits: seq<(Field, string)>, last: (Field, string))
    ensures Replay(d, edits + [last]) == Edit(Replay(d, edits), last.0, last.1)
    decreases |edits|
  {
    if edits != [] {
      assert (edits + [last])[1..] == edits[1..] + [last];
      ReplaySnoc(Edit(d, edits[0].0, edits[0].1), edits[1..], last);
    }
  }

  /** What pressing a button in the form hands to the game. */
  datatype Outcome = Forwarded(data: Draft) | Blocked | Skipped

  /** The submit handler's consent gate. */
  function Gate(d: Draft, consented: bool): (o: Outcome)
    ensures o.Forwarded? || o.Blocked?
    ensures o.Forwarded? <==> consented
    ensures o.Forwarded? ==> o.data == d
  {
    if !consented then Blocked else Forwarded(d)
  }

  /** The submit button is enabled exactly when consent is given. */
  function SubmitEnabled(consented: bool): bool
  {
    consented
  }

  /** An enabled submit button is exactly one whose press would forward the draft. */
  lemma SubmitEnabledIffForwards(d: Draft, consented: bool)
    ensures SubmitEnabled(consented) <==> Gate(d, consented) == Forwarded(d)
  {
  }

  /** The mounted form: its draft and its consent checkbox. */
  class ConsentForm {
    var formData: Draft
    var isConsented: bool

    /** The form opens with empty text fields, the stated defaults and no consent. */
    constructor ()
      ensures formData == InitialDraft
      ensures formData.fullName == "" && formData.email == "" && formData.phone == ""
      ensures formData.address == "" && formData.dob == ""
      ensures formData.gender == "Other" && formData.size == "M"
      ensures formData.style == "Regular Fit" && formData.age == 25
      ensures !isConsented
    {
      formData := InitialDraft;
      isConsented := false;
    }

    /** A change event on one of the form's controls. */
    method SetField(f: Field, v: string)
      modifies this
      ensures formData == Edit(old(formData), f, v)
      ensures isConsented == old(isConsented)
    {
      formData := Edit(formData, f, v);
    }

    /** Ticking or clearing the consent checkbox. */
    method SetConsent(checked: bool)
      modifies this
      ensures isConsented == checked
      ensures formData == old(formData)
    {
      isConsented := checked;
    }

    /** Whether the submit button is enabled. */
    function CanSubmit(): (b: bool)
      reads this
      ensures b <==> Gate(formData, isConsented).Forwarded?
    {
      SubmitEnabled(isConsented)
    }

    /** Submitting the form: the draft goes on only with consent; without it the
        player is alerted and nothing is forwarded. */
    method Submit() returns (o: Outcome)
      ensures o == Gate(formData, isConsented)
      ensures isConsented ==> o == Forwarded(formData)
      ensures !isConsented ==> o == Blocked
    {
      if !isConsented {
        return Blocked;
      }
      o := Forwarded(formData);
    }

    /** Skipping: always available, never looks at the consent box. */
    method Skip() returns (o: Outcome)
      ensures o == Skipped
    {
      o := Skipped;
    }
  }
}
