/** The clock widget's naming of the part of the day. */
module Clock {

  /** `getDayPeriod`, from the hour of the displayed time. */
  function DayPeriod(hours: int): (r: string)
    ensures r == "Late Night" <==> hours < 5
    ensures r == "Morning" <==> 5 <= hours < 12
    ensures r == "Afternoon" <==> 12 <= hours < 17
    ensures r == "Evening" <==> 17 <= hours < 21
    ensures r == "Night" <==> 21 <= hours
  {
    if hours < 5 then "Late Night"
    else if hours < 12 then "Morning"
    else if hours < 17 then "Afternoon"
    else if hours < 21 then "Evening"
    else "Night"
  }

  /** `getDayPeriodEmoji`, from the same hour. */
  function DayPeriodEmoji(hours: int): string
  {
    if hours < 5 then "\U{1F319}"
    else if hours < 12 then "☀️"
    else if hours < 17 then "\U{1F31E}"
    else if hours < 21 then "\U{1F306}"
    else "\U{1F319}"
  }

  /** The emoji of each named period. */
  function EmojiOf(period: string): string
  {
    match period
    case "Morning" => "☀️"
    case "Afternoon" => "\U{1F31E}"
    case "Evening" => "\U{1F306}"
    case _ => "\U{1F319}"
  }

  /** The emoji and the name always agree: the emoji is a function of the named period, the moon serving both ends of the night. */
  lemma EmojiFollowsPeriod(hours: int)
    ensures DayPeriodEmoji(hours) == EmojiOf(DayPeriod(hours))
  {
  }

  /** The periods follow each other in order through the day. */
  function Rank(period: string): nat
  {
    match period
    case "Late Night" => 0
    case "Morning" => 1
    case "Afternoon" => 2
    case "Evening" => 3
    case _ => 4
  }

  lemma DayPeriodMonotone(h1: int, h2: int)
    requires h1 <= h2
    ensures Rank(DayPeriod(h1)) <= Rank(DayPeriod(h2))
  {
  }
}
