/**
 * The profile-edit logic of `src/pages/Profile.tsx`: the language options, the form
 * initialised from the loaded profile, the `hasChanges` flag, the `updates` object sent on
 * submit, and the `saving` flag around the submission.
 */
module ProfilePage {
  import opened Wrappers
  import opened Auth

  /** One entry of the language selector. */
  datatype LanguageOption = LanguageOption(value: string, caption: string)

  const LanguageOptions: seq<LanguageOption> := [
    LanguageOption("english", "English"),
    LanguageOption("spanish", "Spanish"),
    LanguageOption("french", "French"),
    LanguageOption("german", "German"),
    LanguageOption("italian", "Italian"),
    LanguageOption("portuguese", "Portuguese"),
    LanguageOption("arabic", "Arabic"),
    LanguageOption("chinese", "Chinese"),
    LanguageOption("japanese", "Japanese"),
    LanguageOption("korean", "Korean"),
    LanguageOption("russian", "Russian"),
    LanguageOption("hindi", "Hindi")
  ]

  /** The profile row fields the page reads; either may be missing. */
  datatype Profile = Profile(userId: string, displayName: Option<string>, preferredLanguage: Option<string>)

  /** The edit form's state. */
  datatype FormData = FormData(displayName: string, preferredLanguage: string)

  /** JavaScript's `x || d` on an optional string: a missing or empty string gives `d`. */
  function OrElse(x: Option<string>, d: string): string
  {
    if x.Some? && x.value != "" then x.value else d
  }

  /** `profile?.display_name || ''` and `profile?.preferred_language || 'english'`. */
  function Normalised(p: Option<Profile>): FormData
  {
    match p
    case None => FormData("", DefaultLanguage)
    case Some(q) => FormData(OrElse(q.displayName, ""), OrElse(q.preferredLanguage, DefaultLanguage))
  }

  /** The form data set when the profile loads. */
  function InitForm(p: Profile): (f: FormData)
    ensures f.displayName == if p.displayName.Some? then p.displayName.value else ""
    ensures f.preferredLanguage ==
            if p.preferredLanguage.Some? && p.preferredLanguage.value != "" then p.preferredLanguage.value else "english"
  {
    Normalised(Some(p))
  }

  /** The change flag the page computes while a profile is loaded. */
  function HasChanges(form: FormData, p: Profile): (r: bool)
    ensures r <==> BuildUpdates(form, Some(p)) != NoUpdates
  {
    var n := Normalised(Some(p));
    form.displayName != n.displayName || form.preferredLanguage != n.preferredLanguage
  }

  /** The `updates` object of handleSubmit; `p` is the profile, if loaded. */
  function BuildUpdates(form: FormData, p: Option<Profile>): (u: ProfileUpdates)
    ensures Overlay(Normalised(p), u) == form
  {
    var n := Normalised(p);
    ProfileUpdates(
      if form.displayName != n.displayName then Some(form.displayName) else None,
      if form.preferredLanguage != n.preferredLanguage then Some(form.preferredLanguage) else None)
  }

  /** The fields of `base` with those present in `u` written over them. */
  function Overlay(base: FormData, u: ProfileUpdates): FormData
  {
    FormData(u.displayName.GetOr(base.displayName), u.preferredLanguage.GetOr(base.preferredLanguage))
  }

  // ---------------------------------------------------------------------------------------
  // Properties

  /** Twelve options, pairwise distinct values, and the default language among them. */
  lemma LanguageOptionsWellFormed()
    ensures |LanguageOptions| == 12
    ensures forall i, j :: 0 <= i < j < |LanguageOptions| ==> LanguageOptions[i].value != LanguageOptions[j].value
    ensures exists i :: 0 <= i < |LanguageOptions| && LanguageOptions[i].value == DefaultLanguage
  {
    assert LanguageOptions[0].value == DefaultLanguage;
  }

  /**
   * `updates` holds the display name exactly when the form's differs from the profile's
   * (missing counted as ''), and the language exactly when the form's differs from the
   * profile's (missing counted as 'english'); a present field holds the form's value.
   */
  lemma UpdatesAreTheDifferences(form: FormData, p: Option<Profile>)
    ensures var u := BuildUpdates(form, p);
      var dn := if p.Some? && p.value.displayName.Some? then p.value.displayName.value else "";
      var pl := if p.Some? && p.value.preferredLanguage.Some? && p.value.preferredLanguage.value != ""
                then p.value.preferredLanguage.value else "english";
      (u.displayName.Some? <==> form.displayName != dn)
      && (u.displayName.Some? ==> u.displayName.value == form.displayName)
      && (u.preferredLanguage.Some? <==> form.preferredLanguage != pl)
      && (u.preferredLanguage.Some? ==> u.preferredLanguage.value == form.preferredLanguage)
  {
  }

  /** With a profile loaded, `hasChanges` holds exactly when `updates` would be non-empty. */
  lemma HasChangesIffUpdates(form: FormData, p: Profile)
    ensures HasChanges(form, p) <==> BuildUpdates(form, Some(p)) != NoUpdates
  {
  }

  /** Right after initialisation the form has no changes and `updates` is empty. */
  lemma FreshFormIsClean(p: Profile)
    ensures !HasChanges(InitForm(p), p)
    ensures BuildUpdates(InitForm(p), Some(p)) == NoUpdates
  {
  }

  /** Writing `updates` over the normalised profile fields gives back the form. */
  lemma UpdatesRoundTrip(form: FormData, p: Option<Profile>)
    ensures Overlay(Normalised(p), BuildUpdates(form, p)) == form
  {
  }

  /** `updates` is the smallest overlay that round-trips: no field is sent that is already equal. */
  lemma UpdatesAreMinimal(form: FormData, p: Option<Profile>, u: ProfileUpdates)
    requires Overlay(Normalised(p), u) == form
    ensures BuildUpdates(form, p).displayName.Some? ==> u.displayName.Some?
    ensures BuildUpdates(form, p).preferredLanguage.Some? ==> u.preferredLanguage.Some?
  {
  }

  // ---------------------------------------------------------------------------------------
  // The page component's state

  /** The outcome of `await updateProfile(updates)`. */
  datatype SubmitOutcome = Returned(error: Option<Error>) | Threw(message: string)

  class ProfileForm {
    /** The profile query's data, once loaded. */
    var profile: Option<Profile>
    var form: FormData
    var saving: bool
    var hasChanges: bool

    constructor()
      ensures profile == None && form == FormData("", "english") && !saving && !hasChanges
    {
      profile := None;
      form := FormData("", DefaultLanguage);
      saving, hasChanges := false, false;
    }

    /** The profile loads: the form is initialised from it and the change check re-runs. */
    method LoadProfile(p: Profile)
      modifies this
      ensures profile == Some(p) && form == InitForm(p) && saving == old(saving)
      ensures !hasChanges
    {
      profile := Some(p);
      form := InitForm(p);
      hasChanges := HasChanges(form, p);
      FreshFormIsClean(p);
    }

    /** The user edits the display name; the change check re-runs when a profile is loaded. */
    method EditDisplayName(v: string)
      modifies this
      ensures form == old(form).(displayName := v) && profile == old(profile) && saving == old(saving)
      ensures hasChanges == if profile.Some? then HasChanges(form, profile.value) else old(hasChanges)
    {
      form := form.(displayName := v);
      if profile.Some? {
        hasChanges := HasChanges(form, profile.value);
      }
    }

    /** The user picks a language; the change check re-runs when a profile is loaded. */
    method EditLanguage(v: string)
      modifies this
      ensures form == old(form).(preferredLanguage := v) && profile == old(profile) && saving == old(saving)
      ensures hasChanges == if profile.Some? then HasChanges(form, profile.value) else old(hasChanges)
    {
      form := form.(preferredLanguage := v);
      if profile.Some? {
        hasChanges := HasChanges(form, profile.value);
      }
    }

    /** handleSubmit up to the await: `saving` goes on and the updates are built. */
    method BeginSubmit() returns (updates: ProfileUpdates)
      modifies this
      ensures saving && updates == BuildUpdates(form, profile)
      ensures form == old(form) && profile == old(profile) && hasChanges == old(hasChanges)
    {
      saving := true;
      var n := Normalised(profile);
      updates := NoUpdates;
      if form.displayName != n.displayName {
        updates := updates.(displayName := Some(form.displayName));
      }
      if form.preferredLanguage != n.preferredLanguage {
        updates := updates.(preferredLanguage := Some(form.preferredLanguage));
      }
    }

    /**
     * handleSubmit after the await: `saving` goes off whatever the outcome, and `hasChanges`
     * is cleared only on success.
     */
    method FinishSubmit(outcome: SubmitOutcome)
      modifies this
      ensures !saving && form == old(form) && profile == old(profile)
      ensures hasChanges == if outcome == Returned(None) then false else old(hasChanges)
    {
      match outcome {
        case Returned(error) =>
          if error.None? {
            hasChanges := false;
          }
        case Threw(_) =>
      }
      saving := false;
    }

    /**
     * The whole of handleSubmit against the auth provider, when updateProfile returns: the
     * provider records exactly the computed updates, and `saving` ends off.
     */
    method HandleSubmit(auth: AuthProvider, storeError: Option<Error>) returns (sent: ProfileUpdates)
      modifies this, auth
      ensures sent == BuildUpdates(old(form), old(profile))
      ensures auth.State() == old(auth.State()).(log := old(auth.log) + UpdateProfileCalls(old(auth.user), sent, storeError))
      ensures !saving && form == old(form) && profile == old(profile)
      ensures hasChanges == if UpdateProfileError(old(auth.user), storeError).None? then false else old(hasChanges)
    {
      sent := BeginSubmit();
      var error := auth.UpdateProfile(sent, storeError);
      FinishSubmit(Returned(error));
    }
  }
}
