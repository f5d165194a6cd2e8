/**
 * Record shapes shared by the identity core: the cached user, the request
 * payloads, and the guest-mode data kept in local storage.
 */
module Types {
  import opened Basics

  datatype ActivityLevel = LOW | MEDIUM | HIGH
  datatype Climate = NORMAL | HOT
  datatype Source = SIP | DOUBLE_SIP | GLASS

  /** The backend's user record, cached whole by the client. */
  datatype User = User(id: int, email: string, name: string)

  datatype LoginCredentials = LoginCredentials(email: string, password: string)
  datatype RegisterData = RegisterData(name: string, email: string, password: string)

  datatype GuestHydrationData = GuestHydrationData(consumedMl: int, goalMl: int, remainingMl: int, date: string)
  datatype GuestProfile = GuestProfile(weightKg: int, activityLevel: ActivityLevel, climate: Climate)
  datatype GuestIntake = GuestIntake(volumeMl: int, source: Source, timestamp: string, timeAgo: Option<string>)

  /** The snapshot posted to the backend when guest data is migrated. */
  datatype GuestDataExport = GuestDataExport(
    hydration: Option<GuestHydrationData>,
    profile: Option<GuestProfile>,
    history: seq<GuestIntake>,
    exportedAt: string)
}
