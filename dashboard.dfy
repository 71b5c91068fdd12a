/**
 * The counting behind the dashboard's gender and age-group charts, over
 * the registered accounts. `calculateAge` (a clock reading) is a parameter.
 */
module Dashboard {
  import opened Wrappers
  import opened Accounts

  // ---------------- displayGenderChart ----------------

  /** The genders the chart has a bar for; any other value is counted nowhere. */
  predicate ChartedGender(g: string) {
    g == "Male" || g == "Female" || g == "Other"
  }

  datatype GenderCounts = GenderCounts(male: nat, female: nat, other: nat)

  /** How many of `users` have exactly this gender, counted in list order. */
  function GenderCount(users: seq<Account>, gender: string): (n: nat)
    ensures n <= |users|
  {
    if users == [] then 0
    else GenderCount(users[..|users| - 1], gender) + (if users[|users| - 1].gender == gender then 1 else 0)
  }

  function ChartedCount(users: seq<Account>): (n: nat)
    ensures n <= |users|
  {
    if users == [] then 0
    else ChartedCount(users[..|users| - 1]) + (if ChartedGender(users[|users| - 1].gender) then 1 else 0)
  }

  function GenderCountsOf(users: seq<Account>): GenderCounts {
    GenderCounts(GenderCount(users, "Male"), GenderCount(users, "Female"), GenderCount(users, "Other"))
  }

  /** The three bars together count exactly the users whose gender is charted, so never more than the users. */
  lemma {:induction false} GenderBarsCountCharted(users: seq<Account>)
    ensures var c := GenderCountsOf(users); c.male + c.female + c.other == ChartedCount(users)
    ensures (forall i :: 0 <= i < |users| ==> ChartedGender(users[i].gender)) ==> ChartedCount(users) == |users|
  {
    if users != [] {
      var n := |users| - 1;
      GenderBarsCountCharted(users[..n]);
      assert forall i :: 0 <= i < n ==> users[..n][i] == users[i];
    }
  }

  // ---------------- displayAgeChart ----------------

  datatype AgeGroup = Age18To25 | Age26To35 | Age36To45 | Age46To55 | Age56Plus

  /** The bucket the if-else chain of displayAgeChart puts an age in; under 18 is counted nowhere. */
  function AgeGroupOf(age: int): (g: Option<AgeGroup>)
    ensures g.None? <==> age < 18
    ensures g == Some(Age18To25) <==> 18 <= age <= 25
    ensures g == Some(Age26To35) <==> 26 <= age <= 35
    ensures g == Some(Age36To45) <==> 36 <= age <= 45
    ensures g == Some(Age46To55) <==> 46 <= age <= 55
    ensures g == Some(Age56Plus) <==> 56 <= age
  {
    if age >= 18 && age <= 25 then Some(Age18To25)
    else if age >= 26 && age <= 35 then Some(Age26To35)
    else if age >= 36 && age <= 45 then Some(Age36To45)
    else if age >= 46 && age <= 55 then Some(Age46To55)
    else if age >= 56 then Some(Age56Plus)
    else None
  }

  datatype AgeCounts = AgeCounts(age18To25: nat, age26To35: nat, age36To45: nat, age46To55: nat, age56Plus: nat)

  /** How many of `users` fall in `group`, their ages given by `calculateAge` of their date of birth. */
  function GroupCount(users: seq<Account>, calculateAge: string -> int, group: AgeGroup): (n: nat)
    ensures n <= |users|
  {
    if users == [] then 0
    else
      var last := users[|users| - 1];
      GroupCount(users[..|users| - 1], calculateAge, group) + (if AgeGroupOf(calculateAge(last.dob)) == Some(group) then 1 else 0)
  }

  function AdultCount(users: seq<Account>, calculateAge: string -> int): (n: nat)
    ensures n <= |users|
  {
    if users == [] then 0
    else AdultCount(users[..|users| - 1], calculateAge) + (if calculateAge(users[|users| - 1].dob) >= 18 then 1 else 0)
  }

  function AgeCountsOf(users: seq<Account>, calculateAge: string -> int): AgeCounts {
    AgeCounts(
      GroupCount(users, calculateAge, Age18To25), GroupCount(users, calculateAge, Age26To35),
      GroupCount(users, calculateAge, Age36To45), GroupCount(users, calculateAge, Age46To55),
      GroupCount(users, calculateAge, Age56Plus))
  }

  /** The five buckets are disjoint and together count exactly the users aged 18 or more. */
  lemma {:induction false} AgeBarsCountAdults(users: seq<Account>, calculateAge: string -> int)
    ensures var c := AgeCountsOf(users, calculateAge);
      c.age18To25 + c.age26To35 + c.age36To45 + c.age46To55 + c.age56Plus == AdultCount(users, calculateAge)
  {
    if users != [] {
      AgeBarsCountAdults(users[..|users| - 1], calculateAge);
    }
  }
}
