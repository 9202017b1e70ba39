/**
 * The console commands `servo <angle>` and `servo_smooth <angle> <step_delay>`
 * of src/servo.c. Argument parsing belongs to argtable3 and is not modelled:
 * a command receives what arg_parse left behind, its error count and the
 * integers it parsed.
 */
module ServoConsole {
  import opened Servo

  /** The result of arg_parse for `servo <angle>`. */
  datatype ServoArgs = ServoArgs(nerrors: int, angle: int)

  /** The result of arg_parse for `servo_smooth <angle> <step_delay>`. */
  datatype SmoothArgs = SmoothArgs(nerrors: int, angle: int, stepDelay: int)

  /** The command's return value: 1 when arg_parse reported errors, 0 otherwise. */
  function ExitCode(nerrors: int): (code: int)
    ensures code == 0 || code == 1
    ensures code == 0 <==> nerrors == 0
  {
    if nerrors != 0 then 1 else 0
  }

  /** servo_cmd: on a parse error return 1 and touch nothing; otherwise set the angle (clamped) and return 0. */
  method ServoCmd(driver: Driver, args: ServoArgs) returns (code: int)
    requires driver.Valid()
    modifies driver
    ensures driver.Valid()
    ensures code == ExitCode(args.nerrors)
    ensures args.nerrors != 0 ==> unchanged(driver)
    ensures args.nerrors == 0 ==>
      && driver.currentAngle == Clamp(args.angle)
      && driver.channelDuty == Some(DutyFor(args.angle))
      && driver.commanded == old(driver.commanded) + [args.angle]
      && driver.effects == old(driver.effects) + [LedcDuty(DutyFor(args.angle))]
  {
    if args.nerrors != 0 {
      return 1;
    }
    driver.SetServoAngle(args.angle);
    return 0;
  }

  /** servo_smooth_cmd: on a parse error return 1 and touch nothing; otherwise move smoothly and return 0. */
  method ServoSmoothCmd(driver: Driver, args: SmoothArgs) returns (code: int)
    requires driver.Valid()
    modifies driver
    ensures driver.Valid()
    ensures code == ExitCode(args.nerrors)
    ensures args.nerrors != 0 ==> unchanged(driver)
    ensures args.nerrors == 0 ==>
      && driver.currentAngle == Clamp(args.angle)
      && driver.channelDuty == Some(DutyFor(Clamp(args.angle)))
      && driver.commanded == old(driver.commanded) + Path(old(driver.currentAngle), Clamp(args.angle)) + [Clamp(args.angle)]
      && driver.effects == old(driver.effects) + SmoothTrace(old(driver.currentAngle), Clamp(args.angle), args.stepDelay)
  {
    if args.nerrors != 0 {
      return 1;
    }
    driver.MoveServoSmoothTo(args.angle, args.stepDelay);
    return 0;
  }
}
