/**
 * The builder page: the form's validation (an ordered list of error
 * messages, the same verdict as the submit button's enabled state, and the
 * count of completed fields), the profile-image guards, the request the page
 * sends to the generate route, and the page's list of toasts.
 *
 * The page reads and writes the shared store; its own state is the toast
 * list, the previewed image and the loading flag. Clock readings
 * (`Date.now()`), the file reader's data URL and the generate route's reply
 * are parameters.
 */
module BuilderPage {
  import opened Wrappers
  import opened JsText
  import Store
  import PB = PromptBuilder
  import GR = GenerateRoute

  // ---------------------------------------------------------------------------
  // Toasts
  // ---------------------------------------------------------------------------

  datatype ToastKind = ErrorToast | SuccessToast | WarningToast
  datatype Toast = Toast(id: int, kind: ToastKind, message: string)

  /** `toasts.filter((toast) => toast.id !== id)` */
  function WithoutId(ts: seq<Toast>, id: int): (r: seq<Toast>)
    ensures |r| <= |ts|
    ensures forall t :: t in r <==> t in ts && t.id != id
  {
    if ts == [] then []
    else (if ts[0].id != id then [ts[0]] else []) + WithoutId(ts[1..], id)
  }

  /** The filter works piece by piece, so the toasts it keeps stay in their order. */
  lemma {:induction false} WithoutIdSplits(a: seq<Toast>, b: seq<Toast>, id: int)
    ensures WithoutId(a + b, id) == WithoutId(a, id) + WithoutId(b, id)
    decreases |a|
  {
    if a == [] {
      assert a + b == b;
    } else {
      assert (a + b)[1..] == a[1..] + b;
      WithoutIdSplits(a[1..], b, id);
    }
  }

  /** A list without the id is left as it is. */
  lemma {:induction false} WithoutAbsentId(ts: seq<Toast>, id: int)
    requires forall t :: t in ts ==> t.id != id
    ensures WithoutId(ts, id) == ts
    decreases |ts|
  {
    if ts != [] {
      assert ts[0] in ts;
      assert forall t :: t in ts[1..] ==> t in ts;
      WithoutAbsentId(ts[1..], id);
    }
  }

  /** Removing a toast just shown, under a fresh id, gives back the list before it was shown. */
  lemma ShowThenRemove(ts: seq<Toast>, t: Toast)
    requires forall u :: u in ts ==> u.id != t.id
    ensures WithoutId(ts + [t], t.id) == ts
  {
    WithoutIdSplits(ts, [t], t.id);
    WithoutAbsentId(ts, t.id);
    assert [t][1..] == [];
  }

  /** The error toasts raised one after the other for `messages`, the k-th taking clock reading k as its id. */
  function ErrorToasts(messages: seq<string>, clock: nat -> int): (r: seq<Toast>)
    ensures |r| == |messages|
  {
    if messages == [] then []
    else ErrorToasts(messages[..|messages| - 1], clock) + [Toast(clock(|messages| - 1), ErrorToast, messages[|messages| - 1])]
  }

  /** One error toast per message, in the messages' order, each with its own clock reading. */
  lemma {:induction false} ErrorToastsAt(messages: seq<string>, clock: nat -> int, i: nat)
    requires i < |messages|
    ensures ErrorToasts(messages, clock)[i] == Toast(clock(i), ErrorToast, messages[i])
    decreases |messages|
  {
    if i < |messages| - 1 {
      ErrorToastsAt(messages[..|messages| - 1], clock, i);
    }
  }

  // ---------------------------------------------------------------------------
  // Required fields
  // ---------------------------------------------------------------------------

  /** The six fields the form requires, in the order they are checked. */
  datatype Required = FullName | EmailAddress | PhoneNumber | ProfessionalDomain | SkillList | FirstProject

  /** The position of a field in the checking order. */
  function Rank(f: Required): nat {
    match f
    case FullName => 0
    case EmailAddress => 1
    case PhoneNumber => 2
    case ProfessionalDomain => 3
    case SkillList => 4
    case FirstProject => 5
  }

  function RequiredText(s: Store.StoreState, f: Required): string {
    match f
    case FullName => s.personalInfo.name
    case EmailAddress => s.personalInfo.email
    case PhoneNumber => s.personalInfo.phone
    case ProfessionalDomain => s.professional.domain
    case SkillList => s.professional.skills
    case FirstProject => s.projects.project1
  }

  function RequiredMessage(f: Required): string {
    match f
    case FullName => "Full Name is required"
    case EmailAddress => "Email Address is required"
    case PhoneNumber => "Phone Number is required"
    case ProfessionalDomain => "Please select your professional domain"
    case SkillList => "Skills are required"
    case FirstProject => "At least one project is required"
  }

  /** The six verdicts `field?.trim()` is truthy, in checking order. */
  function Verdicts(s: Store.StoreState): (v: seq<bool>)
    ensures |v| == 6
  {
    [!IsBlank(s.personalInfo.name), !IsBlank(s.personalInfo.email), !IsBlank(s.personalInfo.phone),
     !IsBlank(s.professional.domain), !IsBlank(s.professional.skills), !IsBlank(s.projects.project1)]
  }

  /** The field passes its check. */
  predicate Filled(s: Store.StoreState, f: Required) {
    Verdicts(s)[Rank(f)]
  }

  /** A field passes its check exactly when its own store text is not blank. */
  lemma FilledReadsField(s: Store.StoreState, f: Required)
    ensures Filled(s, f) <==> !IsBlank(RequiredText(s, f))
  {
  }

  /** The field checked in position `r`. */
  function FieldAt(r: nat): (f: Required)
    requires r < 6
    ensures Rank(f) == r
  {
    [FullName, EmailAddress, PhoneNumber, ProfessionalDomain, SkillList, FirstProject][r]
  }

  /** Among the first `k` checks, with verdicts `v`, the fields that fail, in checking order. */
  function MissingBefore(v: seq<bool>, k: nat): (m: seq<Required>)
    requires k <= |v| == 6
    ensures |m| <= k
  {
    if k == 0 then [] else MissingBefore(v, k - 1) + (if v[k - 1] then [] else [FieldAt(k - 1)])
  }

  /** Among the first `k` checks, the fields that pass, in checking order. */
  function FilledBefore(v: seq<bool>, k: nat): (m: seq<Required>)
    requires k <= |v| == 6
    ensures |m| <= k
  {
    if k == 0 then [] else FilledBefore(v, k - 1) + (if v[k - 1] then [FieldAt(k - 1)] else [])
  }

  /** Exactly the failed checks are listed, each once, in checking order. */
  lemma {:induction false} MissingBeforeLists(v: seq<bool>, k: nat)
    requires k <= |v| == 6
    ensures forall f :: f in MissingBefore(v, k) <==> Rank(f) < k && !v[Rank(f)]
    ensures forall i, j :: 0 <= i < j < |MissingBefore(v, k)| ==>
      Rank(MissingBefore(v, k)[i]) < Rank(MissingBefore(v, k)[j])
  {
    if k > 0 {
      MissingBeforeLists(v, k - 1);
      var m := MissingBefore(v, k - 1);
      forall f ensures f in MissingBefore(v, k) <==> Rank(f) < k && !v[Rank(f)] {
        if Rank(f) == k - 1 {
          assert f == FieldAt(k - 1) by { RankDetermines(f, FieldAt(k - 1)); }
        }
      }
      forall i, j | 0 <= i < j < |MissingBefore(v, k)|
        ensures Rank(MissingBefore(v, k)[i]) < Rank(MissingBefore(v, k)[j])
      {
        if j >= |m| {
          assert MissingBefore(v, k)[i] in m;
        }
      }
    }
  }

  lemma RankDetermines(f: Required, g: Required)
    requires Rank(f) == Rank(g)
    ensures f == g
  {
  }

  /** Every check either passes or fails. */
  lemma {:induction false} CheckedOnce(v: seq<bool>, k: nat)
    requires k <= |v| == 6
    ensures |FilledBefore(v, k)| + |MissingBefore(v, k)| == k
  {
    if k > 0 {
      CheckedOnce(v, k - 1);
    }
  }

  /** The fields that fail their check, in checking order. */
  function Missing(s: Store.StoreState): (m: seq<Required>)
    ensures forall f :: f in m <==> !Filled(s, f)
  {
    MissingBeforeLists(Verdicts(s), 6);
    MissingBefore(Verdicts(s), 6)
  }

  /** The error message of each field, in the same order. */
  function Messages(fs: seq<Required>): (r: seq<string>)
    ensures |r| == |fs|
  {
    if fs == [] then [] else Messages(fs[..|fs| - 1]) + [RequiredMessage(fs[|fs| - 1])]
  }

  lemma {:induction false} MessagesAt(fs: seq<Required>, i: nat)
    requires i < |fs|
    ensures Messages(fs)[i] == RequiredMessage(fs[i])
    decreases |fs|
  {
    if i < |fs| - 1 {
      MessagesAt(fs[..|fs| - 1], i);
    }
  }

  /** The message a check adds: none when it passes. */
  function MessageIf(passes: bool, f: Required): seq<string> {
    if passes then [] else [RequiredMessage(f)]
  }

  /** The messages the first `k` checks push, one check after the other. */
  function PushedBy(v: seq<bool>, k: nat): seq<string>
    requires k <= |v| == 6
  {
    if k == 0 then [] else PushedBy(v, k - 1) + MessageIf(v[k - 1], FieldAt(k - 1))
  }

  /** What the checks push is the message of each failed field, in checking order. */
  lemma {:induction false} PushedAreMessages(v: seq<bool>, k: nat)
    requires k <= |v| == 6
    ensures PushedBy(v, k) == Messages(MissingBefore(v, k))
  {
    if k > 0 {
      PushedAreMessages(v, k - 1);
      var m := MissingBefore(v, k - 1);
      if v[k - 1] {
        assert MissingBefore(v, k) == m + [] == m;
        assert PushedBy(v, k) == PushedBy(v, k - 1) + [];
      } else {
        assert (m + [FieldAt(k - 1)])[..|m|] == m;
      }
    }
  }

  /** One check of `validateForm`: the field's message is pushed when its text is blank. */
  method PushIfBlank(errors: seq<string>, text: string, f: Required) returns (r: seq<string>)
    ensures r == errors + MessageIf(!IsBlank(text), f)
  {
    r := errors;
    if IsBlank(text) {
      r := r + [RequiredMessage(f)];
    }
  }

  /** What the six checks push, with verdicts `v`, one after the other. */
  function CheckMessages(v: seq<bool>): seq<string>
    requires |v| == 6
  {
    MessageIf(v[0], FullName) + MessageIf(v[1], EmailAddress) + MessageIf(v[2], PhoneNumber) +
    MessageIf(v[3], ProfessionalDomain) + MessageIf(v[4], SkillList) + MessageIf(v[5], FirstProject)
  }

  /** The six pushes list the message of each failed field, in checking order. */
  lemma ChecksListMissing(v: seq<bool>)
    requires |v| == 6
    ensures CheckMessages(v) == Messages(MissingBefore(v, 6))
  {
    assert PushedBy(v, 1) == MessageIf(v[0], FullName);
    assert PushedBy(v, 2) == PushedBy(v, 1) + MessageIf(v[1], EmailAddress);
    assert PushedBy(v, 3) == PushedBy(v, 2) + MessageIf(v[2], PhoneNumber);
    assert PushedBy(v, 4) == PushedBy(v, 3) + MessageIf(v[3], ProfessionalDomain);
    assert PushedBy(v, 5) == PushedBy(v, 4) + MessageIf(v[4], SkillList);
    assert PushedBy(v, 6) == PushedBy(v, 5) + MessageIf(v[5], FirstProject);
    PushedAreMessages(v, 6);
  }

  /** The `errors` array of `validateForm`, built by one `push` per failed check. */
  method CollectErrors(s: Store.StoreState) returns (errors: seq<string>)
    ensures errors == Messages(Missing(s))
  {
    errors := PushIfBlank([], s.personalInfo.name, FullName);
    assert errors == MessageIf(!IsBlank(s.personalInfo.name), FullName);
    errors := PushIfBlank(errors, s.personalInfo.email, EmailAddress);
    errors := PushIfBlank(errors, s.personalInfo.phone, PhoneNumber);
    errors := PushIfBlank(errors, s.professional.domain, ProfessionalDomain);
    errors := PushIfBlank(errors, s.professional.skills, SkillList);
    errors := PushIfBlank(errors, s.projects.project1, FirstProject);
    assert errors == CheckMessages(Verdicts(s));
    ChecksListMissing(Verdicts(s));
  }

  /** `isFormValid()`: every required field is filled. */
  predicate IsFormValid(s: Store.StoreState) {
    Filled(s, FullName) && Filled(s, EmailAddress) && Filled(s, PhoneNumber) &&
    Filled(s, ProfessionalDomain) && Filled(s, SkillList) && Filled(s, FirstProject)
  }

  /** `completedFields`: how many of the six required fields are filled. */
  function CompletedFields(s: Store.StoreState): (n: nat)
    ensures n <= 6
  {
    |FilledBefore(Verdicts(s), 6)|
  }

  /** The button's verdict, the form check's verdict and a full count agree. */
  lemma ValidityAgrees(s: Store.StoreState)
    ensures IsFormValid(s) <==> Missing(s) == []
    ensures IsFormValid(s) <==> CompletedFields(s) == 6
    ensures CompletedFields(s) + |Missing(s)| == 6
  {
    CountsAddUp(s);
    NothingMissingWhenValid(s);
    SomethingMissingWhenInvalid(s);
  }

  /** `validateForm` reports errors exactly when the form is invalid. */
  lemma ErrorsIffInvalid(s: Store.StoreState)
    ensures |Messages(Missing(s))| > 0 <==> !IsFormValid(s)
  {
    NothingMissingWhenValid(s);
    SomethingMissingWhenInvalid(s);
  }

  lemma CountsAddUp(s: Store.StoreState)
    ensures CompletedFields(s) + |Missing(s)| == 6
  {
    CheckedOnce(Verdicts(s), 6);
  }

  lemma SomethingMissingWhenInvalid(s: Store.StoreState)
    ensures !IsFormValid(s) ==> Missing(s) != []
  {
  }

  lemma NothingMissingWhenValid(s: Store.StoreState)
    ensures IsFormValid(s) ==> Missing(s) == []
  {
    var m := Missing(s);
    if m != [] {
      var f := m[0];
      assert !Filled(s, f) by { assert f in m; }
      assert !IsFormValid(s) by {
        assert f.FullName? || f.EmailAddress? || f.PhoneNumber? || f.ProfessionalDomain? || f.SkillList? || f.FirstProject?;
      }
    }
  }

  // ---------------------------------------------------------------------------
  // Profile image
  // ---------------------------------------------------------------------------

  /** The largest accepted image: 5 MiB. */
  const MaxImageBytes: nat := 5 * 1024 * 1024

  const ImageTooLarge: string := "Image size should be less than 5MB"
  const NotAnImageFile: string := "Please upload a valid image file"

  /** What the page knows of a chosen file. */
  datatype ImageFile = ImageFile(size: nat, mimeType: string)

  datatype ImageVerdict = TooLarge | NotAnImage | Accepted

  /** The two guards of `handleImageUpload`, size first. */
  function CheckImage(file: ImageFile): (v: ImageVerdict)
    ensures v == TooLarge <==> file.size > MaxImageBytes
    ensures v == NotAnImage <==> file.size <= MaxImageBytes && !StartsWith(file.mimeType, "image/")
    ensures v == Accepted <==> file.size <= MaxImageBytes && StartsWith(file.mimeType, "image/")
  {
    if file.size > MaxImageBytes then TooLarge
    else if !StartsWith(file.mimeType, "image/") then NotAnImage
    else Accepted
  }

  /** The rejection message of a verdict. */
  function RejectionMessage(v: ImageVerdict): string {
    if v == TooLarge then ImageTooLarge else NotAnImageFile
  }

  // ---------------------------------------------------------------------------
  // The generation request
  // ---------------------------------------------------------------------------

  /** The store field each echoed key of the generation request carries. */
  function StoreValue(s: Store.StoreState, k: PB.EchoKey): string {
    match k
    case Name => s.personalInfo.name
    case Email => s.personalInfo.email
    case Phone => s.personalInfo.phone
    case Location => s.personalInfo.location
    case Github => s.personalInfo.github
    case LinkedIn => s.personalInfo.linkedIn
    case Skills => s.professional.skills
    case ExperienceYears => s.professional.experienceYears
    case Summary => s.professional.summary
    case Domain => s.professional.domain
    case Project1 => s.projects.project1
    case Project2 => s.projects.project2
    case Exp1 => s.experience.exp1
    case Exp2 => s.experience.exp2
  }

  /** `dataToSend`, as the generate route receives it. */
  function DataToSend(s: Store.StoreState): PB.RawBody {
    var p := s.personalInfo;
    var q := s.professional;
    PB.RawBody(
      Some(PB.RawPersonal(Some(p.name), Some(p.email), Some(p.phone), Some(p.location),
                          Some(p.github), Some(p.linkedIn), None)),
      Some(PB.RawProfessional(Some(q.skills), Some(q.experienceYears), Some(q.summary), Some(q.domain))),
      Some(PB.RawProjects(Some(s.projects.project1), Some(s.projects.project2))),
      Some(PB.RawExperience(Some(s.experience.exp1), Some(s.experience.exp2))))
  }

  /** Every field the route reads is sent, with the store's value; the image is not sent. */
  lemma DataToSendCarriesStore(s: Store.StoreState)
    ensures DataToSend(s).personalInfo.Some? && DataToSend(s).personalInfo.value.profileImage.None?
    ensures forall k :: PB.RawField(DataToSend(s), k) == Some(StoreValue(s, k))
  {
  }

  /** The route's echo of the request is exactly the store's fields. */
  lemma EchoIsStore(s: Store.StoreState)
    ensures forall k :: PB.EchoField(PB.Sanitize(DataToSend(s)), k) == StoreValue(s, k)
  {
    DataToSendCarriesStore(s);
  }

  /** The stored image plays no part in the request, so none in the prompt built from it. */
  lemma RequestIgnoresImage(s: Store.StoreState, image: string)
    ensures DataToSend(s.(personalInfo := s.personalInfo.(profileImage := image))) == DataToSend(s)
  {
  }

  const Generated: string := "Portfolio generated successfully!"
  const GenerationFailed: string := "Failed to generate portfolio.  Please try again."
  const GenerationError: string := "An error occurred.  Please try again."

  /** The patch `{ profileImage: image }`. */
  function ImagePatch(image: string): Store.PersonalPatch {
    Store.NoPersonalChange.(profileImage := Some(image))
  }

  // ---------------------------------------------------------------------------
  // The page
  // ---------------------------------------------------------------------------

  class Page {
    const store: Store.ResumeStore
    var toasts: seq<Toast>
    var profileImage: Option<string>
    var loading: bool

    /** The page's initial state: no toasts, not loading, and the stored image if there is one. */
    constructor(store: Store.ResumeStore)
      ensures this.store == store
      ensures toasts == [] && !loading
      ensures profileImage == if |store.personalInfo.profileImage| > 0 then Some(store.personalInfo.profileImage) else None
    {
      this.store := store;
      toasts := [];
      loading := false;
      profileImage := if |store.personalInfo.profileImage| > 0 then Some(store.personalInfo.profileImage) else None;
    }

    /** `showToast`, with `now` the clock reading that becomes the toast's id. */
    method ShowToast(kind: ToastKind, message: string, now: int)
      modifies this
      ensures toasts == old(toasts) + [Toast(now, kind, message)]
      ensures profileImage == old(profileImage) && loading == old(loading)
    {
      toasts := toasts + [Toast(now, kind, message)];
    }

    method RemoveToast(id: int)
      modifies this
      ensures toasts == WithoutId(old(toasts), id)
      ensures profileImage == old(profileImage) && loading == old(loading)
    {
      toasts := WithoutId(toasts, id);
    }

    /** `errors.forEach(error => showToast(error, "error"))`, the k-th toast taking clock reading k. */
    method ShowErrors(errors: seq<string>, clock: nat -> int)
      modifies this
      ensures toasts == old(toasts) + ErrorToasts(errors, clock)
      ensures profileImage == old(profileImage) && loading == old(loading)
    {
      var i := 0;
      while i < |errors|
        invariant 0 <= i <= |errors|
        invariant toasts == old(toasts) + ErrorToasts(errors[..i], clock)
        invariant profileImage == old(profileImage) && loading == old(loading)
      {
        ShowToast(ErrorToast, errors[i], clock(i));
        assert errors[..i + 1][..i] == errors[..i];
        i := i + 1;
      }
      assert errors[..i] == errors;
    }

    /** `validateForm`: collects the errors, shows one toast per error in order, and answers whether there were none. */
    method ValidateForm(clock: nat -> int) returns (valid: bool)
      modifies this
      ensures valid <==> IsFormValid(store.State())
      ensures toasts == old(toasts) + ErrorToasts(Messages(Missing(store.State())), clock)
      ensures valid ==> toasts == old(toasts)
      ensures profileImage == old(profileImage) && loading == old(loading)
    {
      var errors := CollectErrors(store.State());
      ErrorsIffInvalid(store.State());
      valid := |errors| == 0;
      if !valid {
        ShowErrors(errors, clock);
      } else {
        assert ErrorToasts(errors, clock) == [];
      }
      assert store.State() == old(store.State());
    }

    /**
     * `handleImageUpload`: a file that fails a guard raises its toast and
     * changes nothing else; an accepted file becomes the preview and the
     * stored image, `dataUrl` being what the file reader produces for it.
     */
    method HandleImageUpload(file: Option<ImageFile>, dataUrl: string, now: int)
      modifies this, store
      ensures loading == old(loading)
      ensures file.None? ==>
        toasts == old(toasts) && profileImage == old(profileImage) && store.State() == old(store.State())
      ensures file.Some? && CheckImage(file.value) != Accepted ==>
        toasts == old(toasts) + [Toast(now, ErrorToast, RejectionMessage(CheckImage(file.value)))] &&
        profileImage == old(profileImage) && store.State() == old(store.State())
      ensures file.Some? && CheckImage(file.value) == Accepted ==>
        toasts == old(toasts) && profileImage == Some(dataUrl) &&
        store.State() == old(store.State()).(personalInfo := Store.MergePersonal(old(store.personalInfo), ImagePatch(dataUrl)))
    {
      if file.Some? {
        if file.value.size > MaxImageBytes {
          ShowToast(ErrorToast, ImageTooLarge, now);
          return;
        }
        if !StartsWith(file.value.mimeType, "image/") {
          ShowToast(ErrorToast, NotAnImageFile, now);
          return;
        }
        profileImage := Some(dataUrl);
        store.SetPersonalInfo(ImagePatch(dataUrl));
      }
    }

    /** `removeImage`: no preview, and the stored image becomes "". */
    method RemoveImage()
      modifies this, store
      ensures toasts == old(toasts) && loading == old(loading)
      ensures profileImage == None
      ensures store.State() == old(store.State()).(personalInfo := Store.MergePersonal(old(store.personalInfo), ImagePatch("")))
    {
      profileImage := None;
      store.SetPersonalInfo(ImagePatch(""));
    }

    /**
     * The body of `generateResume`'s `try` after the request: a generated
     * portfolio goes into the store; a failure reply or a thrown error raises
     * its toast, `now` being the clock reading the toast takes.
     */
    method HandleReply(reply: Result<GR.Response<Store.AIPortfolio>, string>, now: int)
      modifies this, store
      ensures profileImage == old(profileImage) && loading == old(loading)
      ensures reply.Success? && reply.value.Generated? ==>
        store.State() == old(store.State()).(aiPortfolio := Some(reply.value.aiPortfolio)) &&
        toasts == old(toasts) + [Toast(now, SuccessToast, Generated)]
      ensures reply.Success? && reply.value.Failed? ==>
        store.State() == old(store.State()) &&
        toasts == old(toasts) + [Toast(now, ErrorToast, if |reply.value.error| > 0 then reply.value.error else GenerationFailed)]
      ensures reply.Failure? ==>
        store.State() == old(store.State()) && toasts == old(toasts) + [Toast(now, ErrorToast, GenerationError)]
    {
      match reply {
        case Success(response) =>
          if response.Generated? {
            store.SetAIPortfolio(response.aiPortfolio);
            ShowToast(SuccessToast, Generated, now);
          } else {
            ShowToast(ErrorToast, if |response.error| > 0 then response.error else GenerationFailed, now);
          }
        case Failure(_) =>
          ShowToast(ErrorToast, GenerationError, now);
      }
    }

    /**
     * `generateResume`: an invalid form sends nothing; a valid one sends
     * `DataToSend` of the store, and `generate` stands for the route's reply
     * (or the error `fetch` or `res.json()` threw).
     */
    method GenerateResume(clock: nat -> int, generate: PB.RawBody -> Result<GR.Response<Store.AIPortfolio>, string>)
      returns (sent: Option<PB.RawBody>)
      modifies this, store
      ensures profileImage == old(profileImage)
      ensures !IsFormValid(old(store.State())) ==>
        sent == None && store.State() == old(store.State()) && loading == old(loading) &&
        toasts == old(toasts) + ErrorToasts(Messages(Missing(old(store.State()))), clock)
      ensures IsFormValid(old(store.State())) ==>
        sent == Some(DataToSend(old(store.State()))) && !loading
      ensures IsFormValid(old(store.State())) && generate(DataToSend(old(store.State()))).Success? ==>
        var reply := generate(DataToSend(old(store.State()))).value;
        (reply.Generated? ==>
          store.State() == old(store.State()).(aiPortfolio := Some(reply.aiPortfolio)) &&
          toasts == old(toasts) + [Toast(clock(0), SuccessToast, Generated)]) &&
        (reply.Failed? ==>
          store.State() == old(store.State()) &&
          toasts == old(toasts) + [Toast(clock(0), ErrorToast, if |reply.error| > 0 then reply.error else GenerationFailed)])
      ensures IsFormValid(old(store.State())) && generate(DataToSend(old(store.State()))).Failure? ==>
        store.State() == old(store.State()) && toasts == old(toasts) + [Toast(clock(0), ErrorToast, GenerationError)]
    {
      var valid := ValidateForm(clock);
      assert store.State() == old(store.State());
      if !valid {
        return None;
      }
      loading := true;
      var dataToSend := DataToSend(store.State());
      sent := Some(dataToSend);
      HandleReply(generate(dataToSend), clock(0));
      loading := false;
    }
  }
}
