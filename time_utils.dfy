/**
 * The time-of-day helpers: an hour of the local clock is mapped to one of
 * the four catalog buckets, and a bucket to the greeting shown above the
 * question. The clock read itself is replaced by an `hour` parameter.
 */
module TimeUtils {

  const Morning := "morning"
  const Afternoon := "afternoon"
  const Evening := "evening"
  const Night := "night"

  /** The four buckets a question of the catalog can be tagged with. */
  predicate IsBucket(s: string) {
    s == Morning || s == Afternoon || s == Evening || s == Night
  }

  /** getTimeOfDay, with the hour passed in instead of read from the clock. */
  function TimeOfDay(hour: int): (r: string)
    ensures IsBucket(r)
    ensures r == Morning <==> 5 <= hour < 12
    ensures r == Afternoon <==> 12 <= hour < 17
    ensures r == Evening <==> 17 <= hour < 21
    ensures r == Night <==> hour < 5 || 21 <= hour
  {
    if hour >= 5 && hour < 12 then Morning
    else if hour >= 12 && hour < 17 then Afternoon
    else if hour >= 17 && hour < 21 then Evening
    else Night
  }

  /** The switch of getGreeting, over any bucket string. */
  function GreetingFor(timeOfDay: string): (r: string)
    ensures timeOfDay == Morning <==> r == "Good morning"
    ensures timeOfDay == Afternoon <==> r == "Good afternoon"
    ensures timeOfDay == Evening <==> r == "Good evening"
    ensures timeOfDay !in {Morning, Afternoon, Evening} <==> r == "Hello"
  {
    match timeOfDay
    case "morning" => "Good morning"
    case "afternoon" => "Good afternoon"
    case "evening" => "Good evening"
    case _ => "Hello"
  }

  /** getGreeting: the greeting names the part of the day for daytime hours, and is "Hello" at night. */
  function Greeting(hour: int): (r: string)
    ensures r == "Good morning" <==> 5 <= hour < 12
    ensures r == "Good afternoon" <==> 12 <= hour < 17
    ensures r == "Good evening" <==> 17 <= hour < 21
    ensures r == "Hello" <==> hour < 5 || 21 <= hour
  {
    GreetingFor(TimeOfDay(hour))
  }
}
