/** The profile page: the avatar initials, the edit form and its cancel,
    and the outcomes of loading and saving the profile. */
module Profile {
  import opened Common

  // ---------------------------------------------------------------------
  // Initials

  /** `s.split(' ')`: the pieces between single spaces; two spaces in a
      row give an empty piece, and "" splits into [""]. */
  function Split(s: string): (words: seq<string>)
    ensures |words| >= 1
    ensures forall i, j :: 0 <= i < |words| && 0 <= j < |words[i]| ==> words[i][j] != ' '
  {
    if s == [] then [""]
    else
      var rest := Split(s[1..]);
      if s[0] == ' ' then [""] + rest else [[s[0]] + rest[0]] + rest[1..]
  }

  /** `words.join(' ')`. */
  function Join(words: seq<string>): string
    requires |words| >= 1
  {
    if |words| == 1 then words[0] else words[0] + " " + Join(words[1..])
  }

  /** Joining the pieces with single spaces gives the text back. */
  lemma {:induction false} JoinSplit(s: string)
    ensures Join(Split(s)) == s
  {
    if s != [] {
      JoinSplit(s[1..]);
      var rest := Split(s[1..]);
      if s[0] == ' ' {
        assert Split(s)[1..] == rest;
        assert s == " " + s[1..];
      } else {
        var words := Split(s);
        assert words[1..] == rest[1..];
        if |rest| == 1 {
          assert Join(words) == [s[0]] + rest[0];
        } else {
          assert Join(rest) == rest[0] + " " + Join(rest[1..]);
          assert Join(words) == ([s[0]] + rest[0]) + " " + Join(rest[1..]);
        }
        assert s == [s[0]] + s[1..];
      }
    }
  }

  /** `words.map(word => word[0]).join('')`: an empty word's `word[0]` is
      undefined, which `join` writes as nothing. */
  function FirstChars(words: seq<string>): string {
    if words == [] then []
    else (if words[0] == [] then [] else [words[0][0]]) + FirstChars(words[1..])
  }

  /** The characters of `s` that begin a word: not a space, and first or
      right after a space. `afterSpace` says whether the text before `s`
      ended in a space (or there was none). */
  function WordStarts(s: string, afterSpace: bool): (r: string)
    ensures |r| <= |s|
  {
    if s == [] then []
    else (if s[0] != ' ' && afterSpace then [s[0]] else []) + WordStarts(s[1..], s[0] == ' ')
  }

  /** Every word start is a character of the text, and none is a space. */
  lemma {:induction false} WordStartsChars(s: string, afterSpace: bool)
    ensures forall c :: c in WordStarts(s, afterSpace) ==> c != ' ' && c in s
  {
    if s != [] {
      WordStartsChars(s[1..], s[0] == ' ');
    }
  }

  /** Taking the first character of every piece of the split is taking the
      characters that start a word; inside a word, the first piece adds
      nothing. */
  lemma {:induction false} FirstCharsAreWordStarts(s: string)
    ensures FirstChars(Split(s)) == WordStarts(s, true)
    ensures FirstChars(Split(s)[1..]) == WordStarts(s, false)
  {
    if s != [] {
      FirstCharsAreWordStarts(s[1..]);
      var rest := Split(s[1..]);
      var words := Split(s);
      if s[0] == ' ' {
        assert words[1..] == rest;
      } else {
        assert words[1..] == rest[1..];
        assert words[0] == [s[0]] + rest[0];
      }
    }
  }

  /** `substring(0, 2)`. */
  function Take2(s: string): (r: string)
    ensures |r| <= 2 && r <= s
    ensures |s| >= 2 ==> |r| == 2
  {
    if |s| <= 2 then s else s[..2]
  }

  /** `getInitials(name)`: "U" without a name; otherwise the upper-cased
      first characters of the first two words. */
  function GetInitials(name: Option<string>): (r: string)
    ensures !(name.Some? && Truthy(name.value)) ==> r == "U"
    ensures name.Some? && Truthy(name.value) ==> r == Take2(ToUpper(WordStarts(name.value, true)))
    ensures |r| <= 2 && NoLowerCase(r)
  {
    match name
    case None => "U"
    case Some(n) =>
      if n == "" then "U"
      else
        FirstCharsAreWordStarts(n);
        Take2(ToUpper(FirstChars(Split(n))))
  }

  /** Whether the text after `x` starts right after a space, when the text
      before `x` did so according to `afterSpace`. */
  function AfterSpaceFollowing(x: string, afterSpace: bool): bool {
    if x == [] then afterSpace else x[|x| - 1] == ' '
  }

  /** One step of `WordStarts`. */
  lemma WordStartsStep(s: string, afterSpace: bool)
    requires s != []
    ensures WordStarts(s, afterSpace) ==
            (if s[0] != ' ' && afterSpace then [s[0]] else []) + WordStarts(s[1..], s[0] == ' ')
  {
  }

  /** Word starts of a concatenation: the second part continues from
      whether the first ended in a space. */
  lemma {:induction false} WordStartsConcat(x: string, y: string, afterSpace: bool)
    ensures WordStarts(x + y, afterSpace) ==
            WordStarts(x, afterSpace) + WordStarts(y, AfterSpaceFollowing(x, afterSpace))
  {
    if x == [] {
      assert x + y == y;
    } else {
      var xy := x + y;
      var t := x[1..];
      var b := x[0] == ' ';
      var h := if x[0] != ' ' && afterSpace then [x[0]] else [];
      assert xy[0] == x[0];
      assert xy[1..] == t + y;
      WordStartsStep(xy, afterSpace);
      WordStartsStep(x, afterSpace);
      WordStartsConcat(t, y, b);
      assert AfterSpaceFollowing(t, b) == AfterSpaceFollowing(x, afterSpace);
      var p, q := WordStarts(t, b), WordStarts(y, AfterSpaceFollowing(x, afterSpace));
      assert h + (p + q) == (h + p) + q;
    }
  }

  /** Inside a word without spaces no further word starts. */
  lemma {:induction false} NoStartInsideWord(w: string)
    requires forall i :: 0 <= i < |w| ==> w[i] != ' '
    ensures WordStarts(w, false) == []
  {
    if w != [] {
      NoStartInsideWord(w[1..]);
    }
  }

  /** Spaces alone start no word. */
  lemma {:induction false} NoStartInSpaces(s: string, afterSpace: bool)
    requires forall i :: 0 <= i < |s| ==> s[i] == ' '
    ensures WordStarts(s, afterSpace) == []
  {
    if s != [] {
      NoStartInSpaces(s[1..], true);
    }
  }

  /** A name of spaces only is truthy, so "U" is not used, and it has no
      word to take a letter from: its initials are empty. */
  lemma BlankNameHasNoInitials(s: string)
    requires s != "" && forall i :: 0 <= i < |s| ==> s[i] == ' '
    ensures GetInitials(Some(s)) == ""
  {
    NoStartInSpaces(s, true);
  }

  /** A word without spaces has its first letter as its only word start. */
  lemma OneWordStart(w: string)
    requires w != []
    requires forall i :: 0 <= i < |w| ==> w[i] != ' '
    ensures WordStarts(w, true) == [w[0]]
  {
    NoStartInsideWord(w[1..]);
  }

  /** Two words separated by one space give their two first letters, upper-cased. */
  lemma TwoWordInitials(first: string, last: string)
    requires first != [] && last != []
    requires forall i :: 0 <= i < |first| ==> first[i] != ' '
    requires forall i :: 0 <= i < |last| ==> last[i] != ' '
    ensures GetInitials(Some(first + " " + last)) == [UpperChar(first[0]), UpperChar(last[0])]
  {
    var head := first + " ";
    OneWordStart(first);
    OneWordStart(last);
    WordStartsConcat(first, " ", true);
    assert !AfterSpaceFollowing(first, true);
    WordStartsStep(" ", false);
    assert WordStarts(" ", false) == [];
    assert WordStarts(head, true) == [first[0]];
    WordStartsConcat(head, last, true);
    assert AfterSpaceFollowing(head, true);
    var ws := [first[0], last[0]];
    assert WordStarts(head + last, true) == ws;
    assert head + last == first + " " + last;
    var up := ToUpper(ws);
    assert up == [UpperChar(first[0]), UpperChar(last[0])];
    assert Take2(up) == up;
  }

  // ---------------------------------------------------------------------
  // The form

  /** The user as the profile endpoints return it; `phone` may be missing. */
  datatype ProfileUser = ProfileUser(name: string, email: string, phone: Option<string>, joinDate: string)

  datatype ProfileForm = ProfileForm(fullName: string, email: string, phone: string)

  datatype Field = FullName | Email | Phone

  const EmptyForm: ProfileForm := ProfileForm("", "", "")

  /** The form filled from a user: a missing phone reads as "". */
  function FormFromUser(u: ProfileUser): (f: ProfileForm)
    ensures f.fullName == u.name && f.email == u.email
    ensures f.phone == OptOrElse(u.phone, "")
  {
    ProfileForm(u.name, u.email, OptOrElse(u.phone, ""))
  }

  function GetField(f: ProfileForm, name: Field): string {
    match name
    case FullName => f.fullName
    case Email => f.email
    case Phone => f.phone
  }

  /** `handleInputChange`: the named field takes the value; the others keep theirs. */
  function SetField(f: ProfileForm, name: Field, value: string): (r: ProfileForm)
    ensures GetField(r, name) == value
    ensures forall other :: other != name ==> GetField(r, other) == GetField(f, other)
  {
    match name
    case FullName => f.(fullName := value)
    case Email => f.(email := value)
    case Phone => f.(phone := value)
  }

  /** The banner above the form: a kind ("", "success" or "error") and a text. */
  datatype Message = Message(kind: string, text: string)

  const NoMessage: Message := Message("", "")
  const LoadFailedMessage: string := "Failed to load user data"
  const UpdatedMessage: string := "Profile updated successfully!"
  const UpdateFailedMessage: string := "Failed to update profile"
  const SubmitErrorMessage: string := "An error occurred. Please try again."

  // ---------------------------------------------------------------------
  // Loading and saving

  /** The body of the `me` response. */
  datatype MeResponse = MeResponse(success: bool, user: ProfileUser)

  /** The body of the profile update response. */
  datatype UpdateResponse = UpdateResponse(success: bool, user: ProfileUser, message: string)

  /** What loading leaves behind. */
  datatype LoadOutcome = LoadOutcome(user: Option<ProfileUser>, form: ProfileForm, message: Message,
                                     navigatedTo: Option<string>)

  /** The load effect as written: once the session check passes, building
      the request calls the session service's `getToken`, which it does not
      have, so the call throws before anything is fetched and the catch
      shows the load error. The fetch outcome is never looked at. */
  function LoadAsWritten(authenticated: bool, form: ProfileForm, fetched: Result<MeResponse>): (o: LoadOutcome)
    ensures !authenticated ==> o == LoadOutcome(None, form, NoMessage, Some("/login"))
    ensures authenticated ==> o == LoadOutcome(None, form, Message("error", LoadFailedMessage), None)
  {
    if !authenticated then LoadOutcome(None, form, NoMessage, Some("/login"))
    else LoadOutcome(None, form, Message("error", LoadFailedMessage), None)
  }

  /** As written, a signed-in user whose profile the server returns still
      gets no user, so the page shows "User not found". */
  lemma LoadAsWrittenLosesUser(u: ProfileUser)
    ensures LoadAsWritten(true, EmptyForm, Ok(MeResponse(true, u))).user.None?
    ensures Load(true, EmptyForm, Ok(MeResponse(true, u))).user == Some(u)
  {
  }

  /** The load effect with the token read from the session: a successful
      response fills the user and the form, an unsuccessful one goes to the
      login page, and a failed request shows the load error. */
  function Load(authenticated: bool, form: ProfileForm, fetched: Result<MeResponse>): (o: LoadOutcome)
    ensures !authenticated ==> o == LoadOutcome(None, form, NoMessage, Some("/login"))
    ensures authenticated && fetched.Ok? && fetched.value.success ==>
              o == LoadOutcome(Some(fetched.value.user), FormFromUser(fetched.value.user), NoMessage, None)
    ensures authenticated && fetched.Ok? && !fetched.value.success ==>
              o == LoadOutcome(None, form, NoMessage, Some("/login"))
    ensures authenticated && fetched.Err? ==>
              o == LoadOutcome(None, form, Message("error", LoadFailedMessage), None)
    ensures o.user.Some? ==> o.form == FormFromUser(o.user.value)
  {
    if !authenticated then LoadOutcome(None, form, NoMessage, Some("/login"))
    else match fetched
      case Ok(data) =>
        if data.success then LoadOutcome(Some(data.user), FormFromUser(data.user), NoMessage, None)
        else LoadOutcome(None, form, NoMessage, Some("/login"))
      case Err(_) => LoadOutcome(None, form, Message("error", LoadFailedMessage), None)
  }

  /** What saving leaves behind. */
  datatype SubmitOutcome = SubmitOutcome(user: Option<ProfileUser>, isEditing: bool, message: Message)

  /** The save effect as written: the request also calls the missing
      `getToken`, so every save ends in the generic error, whatever the
      server would have said. */
  function SubmitAsWritten(user: Option<ProfileUser>, isEditing: bool, outcome: Result<UpdateResponse>): (o: SubmitOutcome)
    ensures o == SubmitOutcome(user, isEditing, Message("error", SubmitErrorMessage))
  {
    SubmitOutcome(user, isEditing, Message("error", SubmitErrorMessage))
  }

  /** As written, a save the server accepts is still reported as an error
      and the form stays open. */
  lemma SubmitAsWrittenAlwaysFails(user: Option<ProfileUser>, u: ProfileUser)
    ensures SubmitAsWritten(user, true, Ok(UpdateResponse(true, u, ""))).message.kind == "error"
    ensures SubmitAsWritten(user, true, Ok(UpdateResponse(true, u, ""))).isEditing
    ensures Submit(user, true, Ok(UpdateResponse(true, u, ""))) ==
            SubmitOutcome(Some(u), false, Message("success", UpdatedMessage))
  {
  }

  /** The save effect with the token read from the session: success ends
      editing with the returned user; a refusal shows the server's text or
      a default; a failed request shows the generic error. */
  function Submit(user: Option<ProfileUser>, isEditing: bool, outcome: Result<UpdateResponse>): (o: SubmitOutcome)
    ensures outcome.Ok? && outcome.value.success ==>
              o == SubmitOutcome(Some(outcome.value.user), false, Message("success", UpdatedMessage))
    ensures outcome.Ok? && !outcome.value.success ==>
              o == SubmitOutcome(user, isEditing, Message("error", OrElse(outcome.value.message, UpdateFailedMessage)))
    ensures outcome.Err? ==> o == SubmitOutcome(user, isEditing, Message("error", SubmitErrorMessage))
    ensures o.message.text != ""
  {
    match outcome
    case Ok(data) =>
      if data.success then SubmitOutcome(Some(data.user), false, Message("success", UpdatedMessage))
      else SubmitOutcome(user, isEditing, Message("error", OrElse(data.message, UpdateFailedMessage)))
    case Err(_) => SubmitOutcome(user, isEditing, Message("error", SubmitErrorMessage))
  }

  // ---------------------------------------------------------------------
  // The page

  class ProfilePage {
    var user: Option<ProfileUser>
    var loading: bool
    var isEditing: bool
    var formData: ProfileForm
    var message: Message
    var navigatedTo: Option<string>

    constructor ()
      ensures user.None? && loading && !isEditing && formData == EmptyForm && message == NoMessage
      ensures navigatedTo.None?
    {
      user := None;
      loading := true;
      isEditing := false;
      formData := EmptyForm;
      message := NoMessage;
      navigatedTo := None;
    }

    /** The mount effect, with the session check and the `me` outcome as
        inputs. Each field is written only on the path that sets it: the
        user and form on success, the message on failure, the navigation on
        a refusal. Loading ends unless the session check sent the user away. */
    method LoadProfile(authenticated: bool, fetched: Result<MeResponse>)
      modifies this
      ensures var o := Load(authenticated, old(formData), fetched);
              user == (if o.user.Some? then o.user else old(user)) && formData == o.form &&
              message == (if o.message != NoMessage then o.message else old(message)) &&
              navigatedTo == (if o.navigatedTo.Some? then o.navigatedTo else old(navigatedTo))
      ensures loading == (if authenticated then false else old(loading))
      ensures isEditing == old(isEditing)
    {
      var o := Load(authenticated, formData, fetched);
      formData := o.form;
      if o.user.Some? {
        user := o.user;
      }
      if o.message != NoMessage {
        message := o.message;
      }
      if o.navigatedTo.Some? {
        navigatedTo := o.navigatedTo;
      }
      if authenticated {
        loading := false;
      }
    }

    method StartEditing()
      modifies this
      ensures isEditing
      ensures user == old(user) && loading == old(loading) && formData == old(formData)
      ensures message == old(message) && navigatedTo == old(navigatedTo)
    {
      isEditing := true;
    }

    method HandleInputChange(name: Field, value: string)
      modifies this
      ensures formData == SetField(old(formData), name, value)
      ensures user == old(user) && loading == old(loading) && isEditing == old(isEditing)
      ensures message == old(message) && navigatedTo == old(navigatedTo)
    {
      formData := SetField(formData, name, value);
    }

    /** The Cancel button (shown only with a user): editing ends, the form
        is refilled from the user and the banner is cleared. */
    method CancelEdit()
      requires user.Some?
      modifies this
      ensures !isEditing && formData == FormFromUser(old(user).value) && message == NoMessage
      ensures user == old(user) && loading == old(loading) && navigatedTo == old(navigatedTo)
    {
      isEditing := false;
      formData := FormFromUser(user.value);
      message := NoMessage;
    }

    /** `handleSubmit`, with the update outcome as input. */
    method HandleSubmit(outcome: Result<UpdateResponse>)
      modifies this
      ensures var o := Submit(old(user), old(isEditing), outcome);
              user == o.user && isEditing == o.isEditing && message == o.message
      ensures !loading && formData == old(formData) && navigatedTo == old(navigatedTo)
    {
      loading := true;
      message := NoMessage;
      var o := Submit(user, isEditing, outcome);
      user := o.user;
      isEditing := o.isEditing;
      message := o.message;
      loading := false;
    }
  }
}
