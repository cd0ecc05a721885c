/**
  What one person has chosen, inside what the deployment allows. A choice may narrow a session's
  lifetimes and the number of sessions, never widen them, and re-authentication is never guessed.
*/
module Preferences {
  import opened Integers
  import opened Options

  const SECONDS_PER_DAY := 86_400
  const SESSION_TTL_DAYS_MIN := 1
  const SESSION_TTL_DAYS_MAX := 90
  const SESSION_ABSOLUTE_TTL_DAYS_MIN := 1
  const SESSION_ABSOLUTE_TTL_DAYS_MAX := 365
  const MAX_SESSIONS_MIN := 1
  const MAX_SESSIONS_MAX := 20

  datatype Preferences = Preferences(
    sessionTtl: int,
    sessionAbsoluteTtl: int,
    maxSessions: int,
    emailNotifications: bool,
    notifyOnNewSession: bool,
    notifyOnCredentialChange: bool,
    requireReauth: Option<bool>)     // None: nobody could say

  /** The configuration, as it starts up: positive, and no absolute lifetime below the idle one. */
  predicate Deployable(d: Preferences) {
    0 < d.sessionTtl <= d.sessionAbsoluteTtl && 0 < d.maxSessions && d.requireReauth == Some(false)
  }

  /** One entry of a person's resolved settings. */
  datatype Setting = Missing | Number(n: int) | Switch(on: bool) | OtherShape | Refusal

  datatype Resolved = Resolved(
    ttlDays: Setting, absoluteDays: Setting, maxSessions: Setting,
    email: Setting, newSession: Setting, credentialChange: Setting, reauth: Setting)

  /** How settings-api answered, if this deployment uses one. */
  datatype Answer = NotUsed | Unavailable | Rejected | Answered(settings: Resolved)

  // ---------------------------------------------------------------- one entry

  function WholeNumber(s: Setting, minimum: int): Option<int> {
    if s.Number? && s.n >= minimum then Some(s.n) else None
  }

  function SwitchOr(s: Setting, otherwise: bool): bool { if s.Switch? then s.on else otherwise }

  function Reauthentication(s: Setting): Option<bool> {
    match s
    case Switch(on) => Some(on)
    case Missing => Some(false)
    case _ => None
  }

  function NarrowTtl(deployment: int, chosenDays: Option<int>, minimumDays: int, maximumDays: int): int {
    if chosenDays.None? then deployment
    else Min(deployment, Max(minimumDays, Min(chosenDays.value, maximumDays)) * SECONDS_PER_DAY)
  }

  function NarrowCount(deployment: int, chosen: Option<int>, minimum: int, maximum: int): int {
    if chosen.None? then deployment else Min(deployment, Max(minimum, Min(chosen.value, maximum)))
  }

  // ---------------------------------------------------------------- one person

  predicate Readable(r: Resolved) {
    !(r.ttlDays.Refusal? || r.absoluteDays.Refusal? || r.maxSessions.Refusal?
      || r.email.Refusal? || r.newSession.Refusal? || r.credentialChange.Refusal?)
  }

  function Apply(d: Preferences, r: Resolved): Preferences {
    var idle := NarrowTtl(d.sessionTtl, WholeNumber(r.ttlDays, 1), SESSION_TTL_DAYS_MIN, SESSION_TTL_DAYS_MAX);
    var absolute := NarrowTtl(d.sessionAbsoluteTtl, WholeNumber(r.absoluteDays, 1),
                              SESSION_ABSOLUTE_TTL_DAYS_MIN, SESSION_ABSOLUTE_TTL_DAYS_MAX);
    Preferences(
      idle, Max(absolute, idle),
      NarrowCount(d.maxSessions, WholeNumber(r.maxSessions, 1), MAX_SESSIONS_MIN, MAX_SESSIONS_MAX),
      SwitchOr(r.email, d.emailNotifications),
      SwitchOr(r.newSession, d.notifyOnNewSession),
      SwitchOr(r.credentialChange, d.notifyOnCredentialChange),
      Reauthentication(r.reauth))
  }

  /** What a login or a credential change is given, or nothing: this service's request was refused. */
  function ForAccount(d: Preferences, a: Answer): Option<Preferences> {
    match a
    case NotUsed => Some(d)
    case Unavailable => Some(d.(requireReauth := None))
    case Rejected => None
    case Answered(r) => if Readable(r) then Some(Apply(d, r)) else None
  }

  // ---------------------------------------------------------------- what a choice can do

  /** Whatever was chosen or answered, nobody gets a longer session or more of them than the deployment's. */
  lemma NeverWidened(d: Preferences, a: Answer)
    requires Deployable(d) && ForAccount(d, a).Some?
    ensures var p := ForAccount(d, a).value;
            && 0 < p.sessionTtl <= p.sessionAbsoluteTtl
            && p.sessionTtl <= d.sessionTtl && p.sessionAbsoluteTtl <= d.sessionAbsoluteTtl
            && 1 <= p.maxSessions <= d.maxSessions
  {
  }

  /**
    A whole number of days is what the session gets, up to 90 idle and 365 in all, unless the
    deployment gives less; likewise up to 20 sessions. The ceiling gives way to the idle time, and a
    number below one to the deployment's.
  */
  lemma ChoicesTakeEffect(d: Preferences, r: Resolved, days: int, absoluteDays: int, count: int)
    requires Deployable(d) && Readable(r)
    requires r.ttlDays == Number(days) && r.absoluteDays == Number(absoluteDays) && r.maxSessions == Number(count)
    ensures var p := ForAccount(d, Answered(r)).value;
            && p.sessionTtl == (if days < 1 then d.sessionTtl else Min(d.sessionTtl, Min(days, 90) * 86_400))
            && p.sessionAbsoluteTtl ==
                 (if absoluteDays < 1 then d.sessionAbsoluteTtl
                  else Max(p.sessionTtl, Min(d.sessionAbsoluteTtl, Min(absoluteDays, 365) * 86_400)))
            && p.maxSessions == (if count < 1 then d.maxSessions else Min(d.maxSessions, Min(count, 20)))
  {
  }

  /**
    A person's request is refused exactly when settings-api rejects it, or refuses an entry other than
    re-authentication. Without settings-api the deployment's values stand, during an outage too but
    for re-authentication, and so does each of them where the person's entry is not of its shape.
  */
  lemma OtherwiseTheDeploymentStands(d: Preferences, a: Answer)
    requires Deployable(d)
    ensures ForAccount(d, a).None? <==>
              || a.Rejected?
              || (a.Answered? && Refusal in {a.settings.ttlDays, a.settings.absoluteDays, a.settings.maxSessions,
                                             a.settings.email, a.settings.newSession, a.settings.credentialChange})
    ensures a.NotUsed? ==> ForAccount(d, a) == Some(d)
    ensures a.Unavailable? ==> ForAccount(d, a) == Some(d.(requireReauth := None))
    ensures a.Answered? && ForAccount(d, a).Some? ==>
              var p, r := ForAccount(d, a).value, a.settings;
              && (!r.ttlDays.Number? ==> p.sessionTtl == d.sessionTtl)
              && (!r.absoluteDays.Number? ==> p.sessionAbsoluteTtl == d.sessionAbsoluteTtl)
              && (!r.maxSessions.Number? ==> p.maxSessions == d.maxSessions)
              && p.emailNotifications == (if r.email.Switch? then r.email.on else d.emailNotifications)
              && p.notifyOnNewSession == (if r.newSession.Switch? then r.newSession.on else d.notifyOnNewSession)
              && p.notifyOnCredentialChange ==
                   (if r.credentialChange.Switch? then r.credentialChange.on else d.notifyOnCredentialChange)
  {
  }

  /**
    Re-authentication reads as off only when settings-api answered and the person left it off, when
    it has no such entry at all, or when the deployment uses none; an outage, a refusal and an
    unusable value are all unknown.
  */
  lemma ReauthNeverGuessed(d: Preferences, a: Answer)
    requires Deployable(d) && ForAccount(d, a).Some?
    ensures ForAccount(d, a).value.requireReauth == Some(false)
      <==> a.NotUsed? || (a.Answered? && a.settings.reauth in {Switch(false), Missing})
    ensures ForAccount(d, a).value.requireReauth == Some(true) <==> a.Answered? && a.settings.reauth == Switch(true)
  {
  }
}
