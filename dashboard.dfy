// The dashboard's time-of-day banner: a pure classification of the local hour.
// The clock reading (`new Date().getHours()`) is passed in as `hour`.

module Dashboard {

  datatype Greeting = GoodMorning | GoodAfternoon | GoodEvening

  /** The banner the dashboard shows for a greeting: its text and gradient. */
  datatype Banner = Banner(greeting: string, gradient: string)

  /** Position of a greeting in the course of a day. */
  function Rank(g: Greeting): nat {
    match g
    case GoodMorning => 0
    case GoodAfternoon => 1
    case GoodEvening => 2
  }

  /** Classifies an hour: before noon is morning, before 17:00 afternoon, then evening. */
  function TimeOfDay(hour: int): (g: Greeting)
    ensures g == GoodMorning <==> hour < 12
    ensures g == GoodAfternoon <==> 12 <= hour < 17
    ensures g == GoodEvening <==> 17 <= hour
  {
    if hour < 12 then GoodMorning
    else if hour < 17 then GoodAfternoon
    else GoodEvening
  }

  function BannerOf(g: Greeting): (b: Banner)
    ensures g == GoodMorning ==> b.greeting == "Good Morning"
    ensures g == GoodAfternoon ==> b.greeting == "Good Afternoon"
    ensures g == GoodEvening ==> b.greeting == "Good Evening"
    ensures g == GoodMorning ==> b.gradient == "from-amber-400 to-orange-500"
    ensures g == GoodAfternoon ==> b.gradient == "from-sky-400 to-cyan-500"
    ensures g == GoodEvening ==> b.gradient == "from-indigo-500 to-purple-600"
  {
    match g
    case GoodMorning => Banner("Good Morning", "from-amber-400 to-orange-500")
    case GoodAfternoon => Banner("Good Afternoon", "from-sky-400 to-cyan-500")
    case GoodEvening => Banner("Good Evening", "from-indigo-500 to-purple-600")
  }

  /** The greeting never moves backwards as the hour increases. */
  lemma TimeOfDayMonotone(h1: int, h2: int)
    requires h1 <= h2
    ensures Rank(TimeOfDay(h1)) <= Rank(TimeOfDay(h2))
  {
  }
}
