/** One date worked through the model: the docstring's date, 12 June 2023
    at 20:40, written in the input format as "Jun 12, 2023 08:40 PM"
    followed by a zone. The output is "2023-06-12 20:40:00" (not the
    RFC 2822 form the docstring shows), and the same for a "+0000" or a
    "+0530" zone. */
module DateFormatExample {
  import opened Wrappers
  import opened Text
  import opened DateFormat

  /** The example clock is printed as "Jun 12, 2023 08:40 PM". */
  lemma ShownExample()
    ensures ShowClock(Clock(2023, 6, 12, 8, 40, true)) == "Jun 12, 2023 08:40 PM"
  {
    ShownPieces();
    ExamplePieces();
  }

  lemma ShownPieces()
    ensures ShowClock(Clock(2023, 6, 12, 8, 40, true))
      == "Jun" + (" " + ("12" + ("," + (" " + ("2023" + (" " + ("08" + (":" + ("40" + (" " + ("PM" + "")))))))))))
  {
    PadYear();
    PadTwoDigits();
    assert MonthNames[5] == "Jun";
  }

  lemma ExamplePieces()
    ensures "Jun" + (" " + ("12" + ("," + (" " + ("2023" + (" " + ("08" + (":" + ("40" + (" " + ("PM" + "")))))))))))
      == "Jun 12, 2023 08:40 PM"
  {
  }

  lemma ClockOfExample(zone: string)
    requires zone == [] || zone[0] !in Whitespace
    ensures ParseClock("Jun 12, 2023 08:40 PM " + zone) == Some(Scan(Clock(2023, 6, 12, 8, 40, true), zone))
  {
    var c := Clock(2023, 6, 12, 8, 40, true);
    ShownExample();
    assert "Jun 12, 2023 08:40 PM " + zone == ShowClock(c) + " " + zone;
    ShowClockRoundTrip(c, zone);
  }

  lemma PadYear()
    ensures Pad(2023, 4) == "2023"
  {
    assert Pad(2, 1) == "2";
    assert Pad(20, 2) == "20";
    assert Pad(202, 3) == "202";
  }
  lemma PadTwoDigits()
    ensures Pad(6, 2) == "06" && Pad(8, 2) == "08" && Pad(12, 2) == "12" && Pad(20, 2) == "20"
    ensures Pad(40, 2) == "40" && Pad(0, 2) == "00"
  {
  }
  lemma RenderExample()
    ensures Render(Stamp(2023, 6, 12, 20, 40, 0)) == "2023-06-12 20:40:00"
  {
    PadYear();
    PadTwoDigits();
  }
  lemma ZoneExamples()
    ensures IsZoneName("UTC") && !IsZoneName("+0000") && !IsZoneName("+0530")
    ensures OffsetMinutes("+0000") == Some(0) && OffsetMinutes("+0530") == Some(330)
  {
    assert LowerPrefix("UTC", 3) == "utc";
    assert "+0530" == ['+', '0', '5', '3', '0'];
    assert "+0000" == ['+', '0', '0', '0', '0'];
    OffsetOfDigits('+', '0', '5', '3', '0', false);
    OffsetOfDigits('+', '0', '0', '0', '0', false);
  }

  /** Whatever zone strptime accepts, the example prints the same. */
  lemma ExampleWithZone(zone: string)
    requires zone != [] && zone[0] !in Whitespace
    requires IsZoneName(zone) || OffsetMinutes(zone).Some?
    ensures FormatDate("Jun 12, 2023 08:40 PM " + zone) == Ok("2023-06-12 20:40:00")
  {
    var c := Clock(2023, 6, 12, 8, 40, true);
    ShownExample();
    assert "Jun 12, 2023 08:40 PM " + zone == ShowClock(c) + " " + zone;
    assert ValidDate(c);
    FormatDateOfShown(c, zone);
    assert ToStamp(c) == Stamp(2023, 6, 12, 20, 40, 0);
    RenderExample();
  }

  lemma ExampleUtc()
    ensures FormatDate("Jun 12, 2023 08:40 PM " + "UTC") == Ok("2023-06-12 20:40:00")
  {
    ZoneExamples();
    ExampleWithZone("UTC");
  }

  lemma ExampleZeroOffset()
    ensures FormatDate("Jun 12, 2023 08:40 PM " + "+0000") == Ok("2023-06-12 20:40:00")
  {
    ZoneExamples();
    ExampleWithZone("+0000");
  }

  lemma ExampleIndianOffset()
    ensures FormatDate("Jun 12, 2023 08:40 PM " + "+0530") == Ok("2023-06-12 20:40:00")
  {
    ZoneExamples();
    ExampleWithZone("+0530");
  }

  /** The docstring's promised "Mon, 12 Jun 2023 20:40:00 +0000" is not
      what the code prints. */
  lemma NotTheDocstringFormat()
    ensures FormatDate("Jun 12, 2023 08:40 PM " + "UTC") != Ok("Mon, 12 Jun 2023 20:40:00 +0000")
  {
    ExampleUtc();
    assert "2023-06-12 20:40:00"[0] != "Mon, 12 Jun 2023 20:40:00 +0000"[0];
  }
}
