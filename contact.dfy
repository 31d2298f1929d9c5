/**
  The contact page: the email format check, the form fields, and the status machine
  `idle / loading / success / error` around the message request.
*/
module Contact {
  import opened Wrappers
  import opened Effects
  import Strings

  const InvalidEmail := "Please enter a valid email address"
  const Sent := "Thank you! Your form has been successfully submitted. We're excited to connect with you soon!!"
  const SendFailed := "Oops! It seems something went wrong. We're sorry for the inconvenience. Please try submitting the form again. "
  const SuccessSound := "/sounds/email-success.mp3"
  const ErrorSound := "/sounds/email-error.mp3"

  // ----- The email format `^[a-zA-Z0-9._-]+@[a-zA-Z0-9.-]+\.[a-zA-Z]{2,6}$` -----

  predicate IsLetter(c: char)
  {
    'a' <= c <= 'z' || 'A' <= c <= 'Z'
  }

  predicate IsDigit(c: char)
  {
    '0' <= c <= '9'
  }

  /** The class of the part before '@': `[a-zA-Z0-9._-]`. */
  predicate IsLocalChar(c: char)
  {
    IsLetter(c) || IsDigit(c) || c == '.' || c == '_' || c == '-'
  }

  /** The class of the domain before the final dot: `[a-zA-Z0-9.-]`. */
  predicate IsDomainChar(c: char)
  {
    IsLetter(c) || IsDigit(c) || c == '.' || c == '-'
  }

  /** What `\s` matches among the ASCII characters. */
  predicate IsWhitespace(c: char)
  {
    c == ' ' || c == '\t' || c == '\n' || c == '\r' || c == '\U{000B}' || c == '\U{000C}'
  }

  lemma AlphabetHasNoWhitespace(c: char)
    requires IsLocalChar(c) || c == '@'
    ensures !IsWhitespace(c)
  {
  }

  /** Every character of `s` is in the class `[a-zA-Z0-9._-]`. */
  predicate AllLocal(s: string)
  {
    forall k | 0 <= k < |s| :: IsLocalChar(s[k])
  }

  /** Every character of `s` is in the class `[a-zA-Z0-9.-]`. */
  predicate AllDomain(s: string)
  {
    forall k | 0 <= k < |s| :: IsDomainChar(s[k])
  }

  /** Every character of `s` is a letter. */
  predicate AllLetters(s: string)
  {
    forall k | 0 <= k < |s| :: IsLetter(s[k])
  }

  /**
    The regular expression matches `s` with its '@' at `at` and the dot before the final
    letters at `dot`: `s[..at]` is one or more local characters, `s[at + 1..dot]` one or more
    domain characters, and `s[dot + 1..]` two to six letters.
  */
  predicate PatternAt(s: string, at: int, dot: int)
  {
    && 0 < at && at + 1 < dot < |s|
    && s[at] == '@' && s[dot] == '.'
    && AllLocal(s[..at])
    && AllDomain(s[at + 1..dot])
    && 2 <= |s| - dot - 1 <= 6
    && AllLetters(s[dot + 1..])
  }

  /** What the regular expression accepts: some split of the string fits it. */
  ghost predicate MatchesEmailPattern(s: string)
  {
    exists at, dot :: PatternAt(s, at, dot)
  }

  /**
    `isValidEmail`, decided without backtracking: no class before the '@' admits '@', so the
    first '@' is the separator; no letter is a dot, so the last dot starts the top-level domain.
  */
  function IsValidEmail(email: string): bool
  {
    var at := Strings.IndexOf(email, '@');
    if at <= 0 then false
    else
      var rest := email[at + 1..];
      var dot := Strings.LastIndexOf(rest, '.');
      && 0 < dot
      && AllLocal(email[..at])
      && AllDomain(rest[..dot])
      && 2 <= |rest| - dot - 1 <= 6
      && AllLetters(rest[dot + 1..])
  }

  /** An '@' preceded only by local characters is the first '@'. */
  lemma FirstAt(s: string, at: nat)
    requires at < |s| && s[at] == '@'
    requires AllLocal(s[..at])
    ensures Strings.IndexOf(s, '@') == at
  {
    forall k | 0 <= k < at ensures s[k] != '@' {
      assert s[..at][k] == s[k];
    }
  }

  /** A dot followed only by letters is the last dot. */
  lemma LastDot(s: string, dot: nat)
    requires dot < |s| && s[dot] == '.'
    requires AllLetters(s[dot + 1..])
    ensures Strings.LastIndexOf(s, '.') == dot
  {
    forall k | dot < k < |s| ensures s[k] != '.' {
      assert s[dot + 1..][k - dot - 1] == s[k];
    }
  }

  /** An accepted string fits the pattern at the first '@' and the last dot. */
  lemma ValidEmailFits(s: string) returns (at: int, d: int)
    requires IsValidEmail(s)
    ensures at == Strings.IndexOf(s, '@')
    ensures PatternAt(s, at, d)
  {
    at := Strings.IndexOf(s, '@');
    var rest := s[at + 1..];
    var dot := Strings.LastIndexOf(rest, '.');
    d := at + 1 + dot;
    assert 0 < at && at + 1 < d < |s|;
    assert s[at] == '@';
    assert s[d] == '.' by { assert s[d] == rest[dot]; }
    assert AllLocal(s[..at]);
    assert AllDomain(s[at + 1..d]) by { assert rest[..dot] == s[at + 1..d]; }
    assert 2 <= |s| - d - 1 <= 6;
    assert AllLetters(s[d + 1..]) by { assert rest[dot + 1..] == s[d + 1..]; }
  }

  /** A string that fits the pattern anywhere is accepted. */
  lemma PatternIsValidEmail(s: string, at: int, d: int)
    requires PatternAt(s, at, d)
    ensures IsValidEmail(s)
  {
    FirstAt(s, at);
    var rest := s[at + 1..];
    var dot := d - at - 1;
    assert rest[dot] == '.';
    assert rest[..dot] == s[at + 1..d];
    assert rest[dot + 1..] == s[d + 1..];
    LastDot(rest, dot);
  }

  /** The check accepts exactly the strings the regular expression matches. */
  lemma ValidEmailMatchesPattern(s: string)
    ensures IsValidEmail(s) <==> MatchesEmailPattern(s)
  {
    if IsValidEmail(s) {
      var at, d := ValidEmailFits(s);
    }
    if MatchesEmailPattern(s) {
      var at, d :| PatternAt(s, at, d);
      PatternIsValidEmail(s, at, d);
    }
  }

  /** An accepted address has exactly one '@'. */
  lemma AcceptedEmailHasOneAt(s: string, at: int, dot: int)
    requires PatternAt(s, at, dot)
    ensures multiset(s)['@'] == 1
  {
    var tail := s[at + 1..];
    assert s == s[..at] + [s[at]] + tail;
    forall k | 0 <= k < at ensures s[..at][k] != '@' {
      assert IsLocalChar(s[..at][k]);
    }
    forall k | 0 <= k < |tail| ensures tail[k] != '@' {
      if k < dot - at - 1 {
        assert tail[k] == s[at + 1..dot][k];
      } else if k > dot - at - 1 {
        assert tail[k] == s[dot + 1..][k - (dot - at)];
      }
    }
    assert multiset(s) == multiset(s[..at]) + multiset{s[at]} + multiset(tail);
  }

  /** Every character of an accepted address is in `[A-Za-z0-9._@-]`, so none is whitespace. */
  lemma AcceptedEmailAlphabet(s: string, at: int, dot: int)
    requires PatternAt(s, at, dot)
    ensures forall k | 0 <= k < |s| :: IsLocalChar(s[k]) || s[k] == '@'
  {
    forall k | 0 <= k < |s| ensures IsLocalChar(s[k]) || s[k] == '@' {
      if k < at {
        assert s[..at][k] == s[k];
      } else if at < k < dot {
        assert s[at + 1..dot][k - at - 1] == s[k];
      } else if dot < k {
        assert s[dot + 1..][k - dot - 1] == s[k];
      }
    }
  }

  /**
    The shape of an accepted address: exactly one '@', a non-empty local part before it, every
    character in `[A-Za-z0-9._@-]` (so no whitespace), and two to six letters after the last dot
    with a non-empty domain between the '@' and that dot.
  */
  lemma AcceptedEmailShape(s: string) returns (at: int, dot: int)
    requires IsValidEmail(s)
    ensures at == Strings.IndexOf(s, '@') && dot == Strings.LastIndexOf(s, '.')
    ensures multiset(s)['@'] == 1
    ensures 0 < at && at + 1 < dot
    ensures forall k | 0 <= k < |s| :: IsLocalChar(s[k]) || s[k] == '@'
    ensures forall k | 0 <= k < |s| :: !IsWhitespace(s[k])
    ensures 2 <= |s| - dot - 1 <= 6 && AllLetters(s[dot + 1..])
  {
    at, dot := ValidEmailFits(s);
    LastDot(s, dot);
    AcceptedEmailHasOneAt(s, at, dot);
    AcceptedEmailAlphabet(s, at, dot);
    forall k | 0 <= k < |s| ensures !IsWhitespace(s[k]) {
      AlphabetHasNoWhitespace(s[k]);
    }
  }

  // ----- The page -----

  datatype Status = Idle | Loading | Success | Error

  datatype ContactForm = ContactForm(name: string, email: string, subject: string, message: string)

  const EmptyForm := ContactForm("", "", "", "")

  /** The `id` attributes of the inputs. */
  datatype ContactField = Name | Email | Subject | Message

  function FieldOf(f: ContactForm, field: ContactField): string
  {
    match field
    case Name => f.name
    case Email => f.email
    case Subject => f.subject
    case Message => f.message
  }

  function WithField(f: ContactForm, field: ContactField, value: string): (g: ContactForm)
    ensures FieldOf(g, field) == value
    ensures forall other | other != field :: FieldOf(g, other) == FieldOf(f, other)
  {
    match field
    case Name => f.(name := value)
    case Email => f.(email := value)
    case Subject => f.(subject := value)
    case Message => f.(message := value)
  }

  class ContactPage {
    var form: ContactForm
    var status: Status
    /** Message requests sent and not yet settled; a stale timer can let a second one overlap. */
    var pending: nat
    /** Timers that will put the status back to idle and have not fired yet. */
    var timers: nat
    var effects: seq<Effect>

    /** "loading" is shown only while a request is out; stale timers can end it earlier. */
    ghost predicate Valid()
      reads this
    {
      status == Loading ==> pending > 0
    }

    /** The submit button's `disabled` attribute. */
    predicate SubmitDisabled()
      reads this
    {
      status == Loading
    }

    constructor ()
      ensures Valid()
      ensures form == EmptyForm && status == Idle && pending == 0 && timers == 0 && effects == []
    {
      form, status, pending := EmptyForm, Idle, 0;
      timers, effects := 0, [];
    }

    /** `handleChange`: only the field keyed by the input's id changes. */
    method Change(field: ContactField, value: string)
      requires Valid()
      modifies this
      ensures Valid()
      ensures FieldOf(form, field) == value
      ensures forall other | other != field :: FieldOf(form, other) == FieldOf(old(form), other)
      ensures status == old(status) && pending == old(pending) && timers == old(timers) && effects == old(effects)
    {
      form := WithField(form, field, value);
    }

    /**
      `handleSubmit` up to the request: an invalid email only plays the error sound and raises
      an error, leaving the status; a valid one sets "loading" and then sends the form, even when
      an earlier request is still out (its timer has already re-enabled the button).
    */
    method Submit()
      requires Valid() && !SubmitDisabled()
      modifies this
      ensures Valid()
      ensures form == old(form) && timers == old(timers)
      ensures !IsValidEmail(old(form).email) ==>
        status == old(status) && pending == old(pending)
        && effects == old(effects) + [PlaySound(ErrorSound), ToastError(InvalidEmail, None)]
      ensures IsValidEmail(old(form).email) ==>
        status == Loading && pending == old(pending) + 1
        && effects == old(effects) + [Send(SendContact(old(form).name, old(form).email, old(form).subject, old(form).message))]
    {
      if !IsValidEmail(form.email) {
        effects := effects + [PlaySound(ErrorSound), ToastError(InvalidEmail, None)];
        return;
      }
      status := Loading;
      effects := effects + [Send(SendContact(form.name, form.email, form.subject, form.message))];
      pending := pending + 1;
    }

    /**
      One outstanding request settles (`ok` is false for a non-ok response and a rejected fetch alike).
      Success clears all four fields; failure keeps them. Either way a timer is armed.
    */
    method Settled(ok: bool)
      requires Valid() && pending > 0
      modifies this
      ensures Valid()
      ensures pending == old(pending) - 1 && timers == old(timers) + 1
      ensures ok ==>
        status == Success && form == EmptyForm
        && effects == old(effects) + [PlaySound(SuccessSound), ToastSuccess(Sent)]
      ensures !ok ==>
        status == Error && form == old(form)
        && effects == old(effects) + [ToastError(SendFailed, None)]
    {
      if ok {
        status := Success;
        effects := effects + [PlaySound(SuccessSound), ToastSuccess(Sent)];
        form := EmptyForm;
      } else {
        status := Error;
        effects := effects + [ToastError(SendFailed, None)];
      }
      timers := timers + 1;
      pending := pending - 1;
    }

    /** A timer armed by `Settled` fires and sets the status back to idle. */
    method TimerFired()
      requires Valid() && timers > 0
      modifies this
      ensures Valid()
      ensures status == Idle && timers == old(timers) - 1
      ensures form == old(form) && pending == old(pending) && effects == old(effects)
    {
      status := Idle;
      timers := timers - 1;
    }
  }
}
