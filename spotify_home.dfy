/** The home screen's greeting, with the hour of the clock passed in. */
module SpotifyHome {

  /** Morning before noon, afternoon from 12 until 18, evening from 18 on;
      each boundary hour belongs to the later part of the day. */
  function GetTimeGreeting(hour: int): (greeting: string)
    ensures greeting == "Good morning" <==> hour < 12
    ensures greeting == "Good afternoon" <==> 12 <= hour < 18
    ensures greeting == "Good evening" <==> 18 <= hour
  {
    if hour < 12 then "Good morning"
    else if hour < 18 then "Good afternoon"
    else "Good evening"
  }

  /** Every hour has one of the three greetings. */
  lemma GreetingIsOneOfThree(hour: int)
    ensures GetTimeGreeting(hour) in {"Good morning", "Good afternoon", "Good evening"}
    ensures GetTimeGreeting(11) == "Good morning" && GetTimeGreeting(12) == "Good afternoon"
    ensures GetTimeGreeting(17) == "Good afternoon" && GetTimeGreeting(18) == "Good evening"
  {
  }
}
