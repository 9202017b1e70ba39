/**
 * Whole interactions from boot: the console and HTTP front ends driving one
 * servo driver, one caller at a time.
 */
module EndToEnd {
  import opened Servo
  import opened CLib
  import opened HttpServer
  import opened ServoConsole

  lemma DecimalExamples()
    ensures Decimal(90) == "90"
    ensures Decimal(180) == "180"
  {
    assert NatDigits(9) == ['9'];
    assert NatDigits(90) == ['9', '0'];
    assert NatDigits(1) == ['1'];
    assert NatDigits(18) == ['1', '8'];
    assert NatDigits(180) == ['1', '8', '0'];
  }

  lemma JsonExamples()
    ensures AngleJson(90) == "{\"angle\":90}"
    ensures AngleJson(180) == "{\"angle\":180}"
  {
    DecimalExamples();
    assert JsonOpen + "90" + JsonClose == "{\"angle\":90}";
    assert JsonOpen + "180" + JsonClose == "{\"angle\":180}";
    AngleJsonExact(90);
    AngleJsonExact(180);
  }

  /**
   * POST angle=90 answers OK; a following POST angle=200 is refused with 400
   * and changes nothing; GET then still reports {"angle":90}.
   */
  method PostThenGet() returns (first: Response, second: Response, get: Response)
    ensures first == OkResponse
    ensures second == InvalidAngleResponse
    ensures get == Response(Ok200, "{\"angle\":90}")
  {
    var driver := new Driver();
    var body := FormBody(90);
    DecideFormBody(90);
    var err;
    first, err := SetAngleHandler(driver, |body|, body);
    body := FormBody(200);
    DecideFormBody(200);
    second, err := SetAngleHandler(driver, |body|, body);
    var contentType;
    contentType, get, err := GetAngleHandler(driver);
    JsonExamples();
  }

  /**
   * The console clamps what HTTP refuses: `servo 300` moves to 180 and GET
   * reports it, while POST angle=300 is answered 400 and leaves 180 in place.
   */
  method ConsoleClampsHttpRefuses() returns (code: int, post: Response, get: Response)
    ensures code == 0
    ensures post == InvalidAngleResponse
    ensures get == Response(Ok200, "{\"angle\":180}")
  {
    var driver := new Driver();
    code := ServoCmd(driver, ServoArgs(0, 300));
    var body := FormBody(300);
    DecideFormBody(300);
    var err, contentType;
    post, err := SetAngleHandler(driver, |body|, body);
    contentType, get, err := GetAngleHandler(driver);
    JsonExamples();
  }

  /** The timer duties for the first degrees: 500, 511, 522 and 533 microseconds. */
  lemma FirstDuties()
    ensures DutyFor(0) == 204 && DutyFor(1) == 209 && DutyFor(2) == 213 && DutyFor(3) == 218
  {
    PulseWidthFitsTimer(1);
    PulseWidthFitsTimer(2);
    PulseWidthFitsTimer(3);
    DutyEndPoints();
  }

  /**
   * `servo_smooth 3 10` on a driver fresh from boot writes the duties of 0, 1,
   * 2 and 3 degrees with a 10 ms pause after each of the first three; a
   * console command with a parse error afterwards writes nothing.
   */
  method SmoothFromBoot(driver: Driver) returns (code: int, failed: int)
    requires driver.Valid() && driver.currentAngle == 0 && driver.effects == []
    modifies driver
    ensures code == 0 && failed == 1
    ensures driver.currentAngle == 3
    ensures driver.effects == [LedcDuty(204), Delay(10), LedcDuty(209), Delay(10), LedcDuty(213), Delay(10), LedcDuty(218)]
  {
    code := ServoSmoothCmd(driver, SmoothArgs(0, 3, 10));
    failed := ServoCmd(driver, ServoArgs(1, 0));
    SmoothTraceShape(0, 3, 10);
    FirstDuties();
  }
}
