// The profile screen: an edit transaction over a draft copy of the user's
// profile, and the per-key notification switches.

module Profile {

  datatype UserProfile = UserProfile(
    name: string, email: string, phone: string, location: string,
    joinDate: string, avatar: string, bio: string)

  const SeedProfile := UserProfile(
    "Alex Johnson", "alex.j@example.com", "+1 (555) 123-4567", "San Francisco, CA", "2023-06-15",
    "\U{00F0}\U{0178}\U{02DC}\U{0160}",
    "Passionate about wellness and helping others on their health journey. Love hiking, cooking healthy meals, and practicing mindfulness.")

  /** The fields the edit form offers: four text inputs and the bio. */
  datatype Field = Name | Email | Phone | Location | Bio

  function FieldValue(p: UserProfile, f: Field): string {
    match f
    case Name => p.name
    case Email => p.email
    case Phone => p.phone
    case Location => p.location
    case Bio => p.bio
  }

  /** The draft after typing `v` into field `f`: that field changes and nothing else. */
  function WithField(p: UserProfile, f: Field, v: string): (q: UserProfile)
    ensures FieldValue(q, f) == v
    ensures forall g: Field | g != f :: FieldValue(q, g) == FieldValue(p, g)
    ensures q.joinDate == p.joinDate && q.avatar == p.avatar
  {
    match f
    case Name => p.(name := v)
    case Email => p.(email := v)
    case Phone => p.(phone := v)
    case Location => p.(location := v)
    case Bio => p.(bio := v)
  }

  datatype NotificationKey = MoodReminders | MealPlanNotifications | MedicationAlerts | ChallengeUpdates

  datatype NotificationSettings = NotificationSettings(
    moodReminders: bool, mealPlanNotifications: bool, medicationAlerts: bool, challengeUpdates: bool)

  const SeedNotifications := NotificationSettings(true, true, true, false)

  function Setting(s: NotificationSettings, k: NotificationKey): bool {
    match k
    case MoodReminders => s.moodReminders
    case MealPlanNotifications => s.mealPlanNotifications
    case MedicationAlerts => s.medicationAlerts
    case ChallengeUpdates => s.challengeUpdates
  }

  /** `handleNotificationChange`: flips exactly the named switch. */
  function Toggled(s: NotificationSettings, k: NotificationKey): (t: NotificationSettings)
    ensures Setting(t, k) == !Setting(s, k)
    ensures forall j: NotificationKey | j != k :: Setting(t, j) == Setting(s, j)
  {
    match k
    case MoodReminders => s.(moodReminders := !s.moodReminders)
    case MealPlanNotifications => s.(mealPlanNotifications := !s.mealPlanNotifications)
    case MedicationAlerts => s.(medicationAlerts := !s.medicationAlerts)
    case ChallengeUpdates => s.(challengeUpdates := !s.challengeUpdates)
  }

  /** Settings are determined by their four switches. */
  /** Flipping the same switch twice restores the settings. */
  lemma ToggledTwice(s: NotificationSettings, k: NotificationKey)
    ensures Toggled(Toggled(s, k), k) == s
  {
  }

  // ---------------------------------------------------------------------------
  // The edit transaction

  datatype ProfileState = ProfileState(
    profile: UserProfile, tempProfile: UserProfile, isEditing: bool, notifications: NotificationSettings)

  /** `handleEdit`: the draft starts as a copy of the committed profile. */
  function BeginEdit(s: ProfileState): (t: ProfileState)
    ensures t.tempProfile == s.profile && t.isEditing
    ensures t.profile == s.profile && t.notifications == s.notifications
  {
    s.(tempProfile := s.profile, isEditing := true)
  }

  /** `handleSaveProfile`: the draft replaces the committed profile as a whole. */
  function Save(s: ProfileState): (t: ProfileState)
    ensures t.profile == s.tempProfile && !t.isEditing
    ensures t.tempProfile == s.tempProfile && t.notifications == s.notifications
  {
    s.(profile := s.tempProfile, isEditing := false)
  }

  /** `handleCancelEdit`: leave edit mode; the committed profile is untouched. */
  function Cancel(s: ProfileState): (t: ProfileState)
    ensures t.profile == s.profile && !t.isEditing
    ensures t.tempProfile == s.tempProfile && t.notifications == s.notifications
  {
    s.(isEditing := false)
  }

  /** A keystroke in one of the form's fields: only the draft changes. */
  function EditDraft(s: ProfileState, f: Field, v: string): (t: ProfileState)
    ensures t.tempProfile == WithField(s.tempProfile, f, v)
    ensures t.profile == s.profile && t.isEditing == s.isEditing && t.notifications == s.notifications
  {
    s.(tempProfile := WithField(s.tempProfile, f, v))
  }

  /** A profile after a series of field edits, in order. */
  function ApplyAll(p: UserProfile, edits: seq<(Field, string)>): UserProfile
    decreases |edits|
  {
    if edits == [] then p else ApplyAll(WithField(p, edits[0].0, edits[0].1), edits[1..])
  }

  /** The state after typing a series of edits into the form. */
  function EditDrafts(s: ProfileState, edits: seq<(Field, string)>): (t: ProfileState)
    decreases |edits|
  {
    if edits == [] then s else EditDrafts(EditDraft(s, edits[0].0, edits[0].1), edits[1..])
  }

  /** Typing never touches the committed profile; the draft is the edits applied to it. */
  lemma {:induction false} EditDraftsOnlyDraft(s: ProfileState, edits: seq<(Field, string)>)
    ensures EditDrafts(s, edits).profile == s.profile
    ensures EditDrafts(s, edits).tempProfile == ApplyAll(s.tempProfile, edits)
    ensures EditDrafts(s, edits).isEditing == s.isEditing
    ensures EditDrafts(s, edits).notifications == s.notifications
    decreases |edits|
  {
    if edits != [] {
      EditDraftsOnlyDraft(EditDraft(s, edits[0].0, edits[0].1), edits[1..]);
    }
  }

  /** Edit, any typing, cancel: the committed profile is what it was before. */
  lemma EditThenCancelKeepsProfile(s: ProfileState, edits: seq<(Field, string)>)
    ensures Cancel(EditDrafts(BeginEdit(s), edits)).profile == s.profile
  {
    EditDraftsOnlyDraft(BeginEdit(s), edits);
  }

  /** Edit, typing, save: the committed profile is the old one with exactly those edits. */
  lemma EditThenSaveCommitsEdits(s: ProfileState, edits: seq<(Field, string)>)
    ensures Save(EditDrafts(BeginEdit(s), edits)).profile == ApplyAll(s.profile, edits)
    ensures edits == [] ==> Save(EditDrafts(BeginEdit(s), edits)).profile == s.profile
  {
    EditDraftsOnlyDraft(BeginEdit(s), edits);
  }

  // ---------------------------------------------------------------------------
  // The screen's state and its handlers

  class ProfileScreen {
    var profile: UserProfile
    var tempProfile: UserProfile
    var isEditing: bool
    var notifications: NotificationSettings

    function State(): ProfileState
      reads this
    {
      ProfileState(profile, tempProfile, isEditing, notifications)
    }

    constructor ()
      ensures State() == ProfileState(SeedProfile, SeedProfile, false, SeedNotifications)
    {
      profile := SeedProfile;
      tempProfile := SeedProfile;
      isEditing := false;
      notifications := SeedNotifications;
    }

    method HandleEdit()
      modifies this`tempProfile, this`isEditing
      ensures State() == BeginEdit(old(State()))
    {
      tempProfile := profile;
      isEditing := true;
    }

    method HandleSaveProfile()
      modifies this`profile, this`isEditing
      ensures State() == Save(old(State()))
    {
      profile := tempProfile;
      isEditing := false;
    }

    method HandleCancelEdit()
      modifies this`isEditing
      ensures State() == Cancel(old(State()))
    {
      isEditing := false;
    }

    method HandleFieldChange(f: Field, v: string)
      modifies this`tempProfile
      ensures State() == EditDraft(old(State()), f, v)
    {
      tempProfile := WithField(tempProfile, f, v);
    }

    method HandleNotificationChange(key: NotificationKey)
      modifies this`notifications
      ensures State() == old(State()).(notifications := Toggled(old(notifications), key))
    {
      notifications := Toggled(notifications, key);
    }
  }
}
