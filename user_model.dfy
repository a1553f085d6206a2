/** The `age` virtual of a user (src/models/user.model.ts): whole years since
    the date of birth, as of the given day. */
module UserModel {
  import opened Documents

  /** The `role` enum; `"user"` is a customer. */
  datatype Role = Admin | Customer

  /** The `gender` enum. */
  datatype Gender = Male | Female

  /** A stored user, reduced to what the dashboards read. */
  datatype User = User(id: string, role: Role, gender: Gender, dob: Date, createdMonth: Month)

  /** `a` comes strictly before `b` in (month, day) order within a year. */
  predicate BeforeInYear(a: Date, b: Date)
  {
    a.month < b.month || (a.month == b.month && a.day < b.day)
  }

  /** Calendar order on dates. */
  predicate NotAfter(a: Date, b: Date)
  {
    a.year < b.year || (a.year == b.year && !BeforeInYear(b, a))
  }

  /** The `age` getter: the difference of the years, one less when this
      year's birthday has not come yet.  That is the number of birthdays up
      to today: the birthday in year `dob.year + r` has come, the next one
      has not. */
  function Age(today: Date, dob: Date): (r: int)
    ensures NotAfter(dob.(year := dob.year + r), today)
    ensures !NotAfter(dob.(year := dob.year + r + 1), today)
  {
    var age := today.year - dob.year;
    if today.month < dob.month || (today.month == dob.month && today.day < dob.day) then age - 1 else age
  }

  /** The age is the year difference, lowered by one exactly when today's
      (month, day) comes before the birth (month, day). */
  lemma AgeCases(today: Date, dob: Date)
    ensures Age(today, dob) == today.year - dob.year || Age(today, dob) == today.year - dob.year - 1
    ensures Age(today, dob) == today.year - dob.year - 1 <==> BeforeInYear(today, dob)
  {
  }

  /** On the birthday itself the full year difference counts. */
  lemma BirthdayCounts(today: Date, dob: Date)
    requires today.month == dob.month && today.day == dob.day
    ensures Age(today, dob) == today.year - dob.year
  {
  }

  /** Nobody born on or before today has a negative age. */
  lemma AgeNonNegative(today: Date, dob: Date)
    requires NotAfter(dob, today)
    ensures Age(today, dob) >= 0
  {
  }
}
