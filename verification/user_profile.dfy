/** The older profile card. Its "time ago" label and initials are copies of
    the ones in the home-tab profile; they are written out again here and
    shown to agree with them. */
module UserProfile {
  import opened Js
  import opened Strings
  import EnhancedUserProfile

  /** `getTimeAgo` as written in this component. */
  function TimeAgo(diff: int): string
  {
    var hours := diff / (1000 * 60 * 60);
    if hours < 24 then IntToString(hours) + "h ago" else IntToString(hours / 24) + "d ago"
  }

  /** The two copies agree on every difference. */
  lemma TimeAgoAgrees(diff: int)
    ensures TimeAgo(diff) == EnhancedUserProfile.TimeAgo(diff)
  {
  }

  /** Below one day the label counts the whole hours; from one day on it
      counts the whole days, at least one. */
  lemma TimeAgoBuckets(diff: int)
    ensures diff < EnhancedUserProfile.MillisPerDay ==>
      var n := diff / EnhancedUserProfile.MillisPerHour;
      EnhancedUserProfile.ParseAgo(TimeAgo(diff)) == Some((n, EnhancedUserProfile.Hours))
    ensures diff >= EnhancedUserProfile.MillisPerDay ==>
      var n := diff / EnhancedUserProfile.MillisPerDay;
      EnhancedUserProfile.ParseAgo(TimeAgo(diff)) == Some((n, EnhancedUserProfile.Days)) && n >= 1
  {
    TimeAgoAgrees(diff);
    if diff < EnhancedUserProfile.MillisPerDay {
      EnhancedUserProfile.TimeAgoHours(diff);
    } else {
      EnhancedUserProfile.TimeAgoDays(diff);
    }
  }

  /** `user.name.split(' ').map(n => n[0]).join('')` as written here. */
  function Initials(name: string): string
  {
    EnhancedUserProfile.FirstChars(Split(name, ' '))
  }

  /** The initials are the characters that start a word, in order, as in
      the other profile. */
  lemma InitialsAgree(name: string)
    ensures Initials(name) == EnhancedUserProfile.Initials(name)
    ensures Initials(name) == EnhancedUserProfile.WordStarts(name, true)
  {
    EnhancedUserProfile.InitialsAreWordStarts(name);
  }
}
