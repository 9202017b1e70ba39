/**
 * The angle handlers of src/http_server.c: `set_angle_handler`, registered
 * for POST /set_angle, and `get_angle_handler`, registered for GET /get_angle.
 * The request is reduced to what the handlers see of it: the return value of
 * httpd_req_recv and the bytes it delivered. A response is its status and
 * its body.
 */
module HttpServer {
  import opened Servo
  import opened CLib

  /** `char buf[32]` and `char response[32]`. */
  const BufSize: nat := 32

  /** httpd_req_recv is asked for sizeof(buf) - 1 bytes, leaving room for the terminator. */
  const RecvCapacity: nat := BufSize - 1

  /** The literal part of the format "angle=%d". */
  const AnglePrefix: seq<CChar> := "angle="

  /** The literal parts of the format "{\"angle\":%d}". */
  const JsonOpen: seq<CChar> := "{\"angle\":"
  const JsonClose: seq<CChar> := "}"

  const JsonContentType: string := "application/json"

  datatype Status = Ok200 | BadRequest400 | InternalServerError500

  /** esp_err_t as the handlers return it. */
  datatype EspErr = EspOk | EspFail

  datatype Response = Response(status: Status, body: seq<CChar>)

  const RecvFailedResponse: Response := Response(InternalServerError500, "Failed to receive data")
  const InvalidAngleResponse: Response := Response(BadRequest400, "Invalid angle")
  const OkResponse: Response := Response(Ok200, "OK")

  predicate HasPrefix(s: seq<CChar>, p: seq<CChar>) {
    |p| <= |s| && s[..|p|] == p
  }

  /**
   * sscanf(s, "angle=%d", &angle): the ordinary characters of the format must
   * match the input one by one; then one `%d` conversion. It returns 1 exactly
   * when the result is Converted.
   */
  function ScanAngle(s: seq<CChar>): (r: ScanResult)
    ensures r.Converted? ==> HasPrefix(s, AnglePrefix)
    ensures (forall i :: 0 <= i < |s| ==> !IsDigit(s[i])) ==> r == NoMatch
  {
    if HasPrefix(s, AnglePrefix) then ScanInt(s[|AnglePrefix|..]) else NoMatch
  }

  /**
   * What httpd_req_recv can report: a byte count of at most RecvCapacity, the
   * bytes themselves at the front of `received`; or 0 or a negative error code.
   */
  predicate RecvResult(ret: int, received: seq<CChar>) {
    ret <= RecvCapacity && (ret > 0 ==> ret <= |received|)
  }

  /** The string sscanf reads once buf[ret] is NUL: the received bytes up to the first NUL. */
  function ReceivedText(ret: int, received: seq<CChar>): (text: seq<CChar>)
    requires RecvResult(ret, received) && ret > 0
    ensures |text| <= ret < BufSize
  {
    CString(received[..ret])
  }

  /** The branch that set_angle_handler takes. */
  datatype Decision = RecvFailed | BadRequest | Apply(angle: int)

  /** Receive check, parse and range check of set_angle_handler, without the effects. */
  function Decide(ret: int, received: seq<CChar>): (d: Decision)
    requires RecvResult(ret, received)
    ensures d == RecvFailed <==> ret <= 0
    ensures d.Apply? ==> InRange(d.angle)
  {
    if ret <= 0 then RecvFailed
    else match ScanAngle(ReceivedText(ret, received))
      case Converted(n) => if InRange(n) then Apply(n) else BadRequest
      case NoMatch => BadRequest
  }

  /**
   * set_angle_handler. The caller must not send a number that overflows
   * `int`, for which sscanf's behaviour is undefined.
   */
  method SetAngleHandler(driver: Driver, ret: int, received: seq<CChar>) returns (resp: Response, err: EspErr)
    requires driver.Valid()
    requires RecvResult(ret, received)
    requires ret > 0 ==> ScanDefined(ScanAngle(ReceivedText(ret, received)))
    modifies driver
    ensures driver.Valid()
    ensures Decide(ret, received) == RecvFailed ==>
      resp == RecvFailedResponse && err == EspFail && unchanged(driver)
    ensures Decide(ret, received) == BadRequest ==>
      resp == InvalidAngleResponse && err == EspFail && unchanged(driver)
    ensures Decide(ret, received).Apply? ==>
      var n := Decide(ret, received).angle;
      && resp == OkResponse && err == EspOk
      && driver.currentAngle == n
      && driver.channelDuty == Some(DutyFor(n))
      && driver.commanded == old(driver.commanded) + [n]
      && driver.effects == old(driver.effects) + [LedcDuty(DutyFor(n))]
  {
    var buf := new CChar[BufSize](_ => Nul);
    if ret <= 0 {
      return RecvFailedResponse, EspFail;
    }
    forall i | 0 <= i < ret {
      buf[i] := received[i];
    }
    buf[ret] := Nul;
    assert buf[..][..ret] == received[..ret];
    CStringStopsAt(buf[..], ret);
    var text := CString(buf[..]);
    match ScanAngle(text) {
      case Converted(angle) =>
        if 0 <= angle && angle <= MaxAngle {
          driver.SetServoAngle(angle);
          return OkResponse, EspOk;
        }
      case NoMatch =>
    }
    return InvalidAngleResponse, EspFail;
  }

  /** The body the control page posts for slider value n: 'angle=' + angle. */
  function FormBody(n: int): seq<CChar> {
    AnglePrefix + Decimal(n)
  }

  /**
   * Every `int` the page could post fits the receive buffer and is read back
   * exactly; it is applied when it lies in [0, 180] and refused otherwise.
   */
  lemma DecideFormBody(n: int)
    requires FitsInt(n)
    ensures 0 < |FormBody(n)| <= RecvCapacity
    ensures ScanAngle(ReceivedText(|FormBody(n)|, FormBody(n))) == Converted(n)
    ensures Decide(|FormBody(n)|, FormBody(n)) == if InRange(n) then Apply(n) else BadRequest
  {
    var b := FormBody(n);
    DecimalLength(n);
    DecimalHasNoNul(n);
    CStringOfNoNul(b);
    assert b[..|b|] == b;
    assert b[|AnglePrefix|..] == Decimal(n) + [];
    ScanIntDecimal(n, []);
  }

  /**
   * Whatever sscanf accepts is applied: "angle=", white space, an optional
   * sign, digits and any tail that does not start with a digit give the
   * signed value, applied when it lies in [0, 180] and refused otherwise.
   */
  lemma DecideAccepts(ws: seq<CChar>, sign: seq<CChar>, ds: seq<CChar>, tail: seq<CChar>)
    requires AllSpaces(ws)
    requires sign == [] || sign == ['-'] || sign == ['+']
    requires ds != [] && AllDigits(ds)
    requires tail == [] || !IsDigit(tail[0])
    requires Nul !in tail
    requires |AnglePrefix + (ws + sign + ds + tail)| <= RecvCapacity
    ensures var b := AnglePrefix + (ws + sign + ds + tail);
      var m: int := DigitsValue(ds);
      var v := if sign == ['-'] then -m else m;
      && ScanAngle(ReceivedText(|b|, b)) == Converted(v)
      && Decide(|b|, b) == if InRange(v) then Apply(v) else BadRequest
  {
    var body := ws + sign + ds + tail;
    var b := AnglePrefix + body;
    forall i | 0 <= i < |b|
      ensures b[i] != Nul
    {
      if i >= |AnglePrefix| + |ws + sign + ds| {
        assert b[i] == tail[i - |AnglePrefix| - |ws + sign + ds|];
      } else if i >= |AnglePrefix| + |ws + sign| {
        assert IsDigit(b[i]);
      } else if i >= |AnglePrefix| + |ws| {
        assert b[i] == sign[i - |AnglePrefix| - |ws|];
      } else if i >= |AnglePrefix| {
        assert IsSpace(b[i]);
      }
    }
    CStringOfNoNul(b);
    assert b[..|b|] == b;
    assert b[|AnglePrefix|..] == body;
    ScanIntAccepts(ws, sign, ds, tail);
  }

  /**
   * The HTTP path refuses exactly the angles the driver would clamp: the
   * handler applies n if and only if n is in range, and then applies what
   * set_servo_angle would have made of it; out of range it writes nothing,
   * where set_servo_angle(n) would move to an end stop.
   */
  lemma RejectsWhereDriverClamps(n: int)
    requires FitsInt(n)
    ensures |FormBody(n)| <= RecvCapacity
    ensures Decide(|FormBody(n)|, FormBody(n)).Apply? <==> Clamp(n) == n
    ensures Decide(|FormBody(n)|, FormBody(n)).Apply? ==> Decide(|FormBody(n)|, FormBody(n)).angle == Clamp(n)
    ensures !InRange(n) ==> Decide(|FormBody(n)|, FormBody(n)) == BadRequest && Clamp(n) == (if n < 0 then 0 else MaxAngle)
  {
    DecideFormBody(n);
  }

  /** A body that is too short for, or differs from, "angle=" at some byte is refused. */
  lemma NoPrefixRejected(ret: int, received: seq<CChar>, k: nat)
    requires RecvResult(ret, received) && ret > 0
    requires ret < |AnglePrefix| || (k < |AnglePrefix| && k < ret && received[k] != AnglePrefix[k])
    ensures Decide(ret, received) == BadRequest
  {
    var text := ReceivedText(ret, received);
    assert !HasPrefix(text, AnglePrefix) by {
      if ret >= |AnglePrefix| && |text| >= |AnglePrefix| {
        assert text[k] == received[k];
      }
    }
  }

  /** "angle=" followed by anything but an integer is refused. */
  lemma PrefixWithoutIntegerRejected(ws: seq<CChar>, sign: seq<CChar>, tail: seq<CChar>)
    requires AllSpaces(ws)
    requires sign == [] || sign == ['-'] || sign == ['+']
    requires tail == [] || (!IsDigit(tail[0]) && (sign == [] ==> !IsSpace(tail[0]) && tail[0] != '-' && tail[0] != '+'))
    requires |AnglePrefix + ws + sign + tail| <= RecvCapacity
    ensures var b := AnglePrefix + ws + sign + tail; Decide(|b|, b) == BadRequest
  {
    var b := AnglePrefix + ws + sign + tail;
    var text := ReceivedText(|b|, b);
    assert b[..|b|] == b;
    if HasPrefix(text, AnglePrefix) {
      assert text == b[..|text|];
      var rest := text[|AnglePrefix|..];
      assert rest == (ws + sign + tail)[..|rest|];
      ScanIntRejectsPrefix(ws, sign, tail, |rest|);
    }
  }

  /**
   * Cutting the input of a failed `%d` short, as an embedded NUL does, cannot
   * make it succeed.
   */
  lemma ScanIntRejectsPrefix(ws: seq<CChar>, sign: seq<CChar>, tail: seq<CChar>, m: nat)
    requires AllSpaces(ws)
    requires sign == [] || sign == ['-'] || sign == ['+']
    requires tail == [] || (!IsDigit(tail[0]) && (sign == [] ==> !IsSpace(tail[0]) && tail[0] != '-' && tail[0] != '+'))
    requires m <= |ws + sign + tail|
    ensures ScanInt((ws + sign + tail)[..m]) == NoMatch
  {
    var s := ws + sign + tail;
    if m <= |ws| {
      assert s[..m] == ws[..m] + [] + [];
      ScanIntRejects(ws[..m], [], []);
    } else if m <= |ws| + |sign| {
      assert s[..m] == ws + sign[..m - |ws|] + [];
      ScanIntRejects(ws, sign[..m - |ws|], []);
    } else {
      assert s[..m] == ws + sign + tail[..m - |ws| - |sign|];
      ScanIntRejects(ws, sign, tail[..m - |ws| - |sign|]);
    }
  }

  /** The bytes after an embedded NUL are never parsed. */
  lemma BytesAfterNulIgnored(ret: int, received: seq<CChar>, k: nat)
    requires RecvResult(ret, received) && ret > 0
    requires k < ret && received[k] == Nul
    ensures ReceivedText(ret, received) == CString(received[..k])
  {
    CStringStopsAt(received[..ret], k);
    assert received[..ret][..k] == received[..k];
  }

  /** snprintf(response, sizeof(response), "{\"angle\":%d}", current_angle). */
  function AngleJson(n: int): (r: seq<CChar>)
    ensures |r| < BufSize
    ensures HasPrefix(JsonOpen + Decimal(n) + JsonClose, r)
    ensures HasPrefix(r, JsonOpen)
  {
    Snprintf(BufSize, JsonOpen + Decimal(n) + JsonClose)
  }

  /**
   * For any `int` the JSON text is never truncated, so it is exactly
   * {"angle":N}; for an angle in [0, 180] it takes at most 13 bytes; and the
   * number can be read back from it.
   */
  lemma AngleJsonExact(n: int)
    requires FitsInt(n)
    ensures AngleJson(n) == JsonOpen + Decimal(n) + JsonClose
    ensures |AngleJson(n)| <= 21
    ensures InRange(n) ==> |AngleJson(n)| <= 13
    ensures ScanInt(AngleJson(n)[|JsonOpen|..]) == Converted(n)
  {
    DecimalLength(n);
    assert (JsonOpen + Decimal(n) + JsonClose)[|JsonOpen|..] == Decimal(n) + JsonClose;
    ScanIntDecimal(n, JsonClose);
  }

  lemma AngleJsonHasNoNul(n: int)
    ensures Nul !in AngleJson(n)
  {
    DecimalHasNoNul(n);
  }

  /**
   * get_angle_handler: format the current angle into a 32-byte buffer and
   * send strlen(response) bytes of it as JSON.
   */
  method GetAngleHandler(driver: Driver) returns (contentType: string, resp: Response, err: EspErr)
    ensures contentType == JsonContentType
    ensures resp == Response(Ok200, AngleJson(driver.currentAngle))
    ensures err == EspOk
  {
    var response := new CChar[BufSize](_ => Nul);
    var out := AngleJson(driver.currentAngle);
    forall i | 0 <= i < |out| {
      response[i] := out[i];
    }
    response[|out|] := Nul;
    assert response[..][..|out|] == out;
    CStringStopsAt(response[..], |out|);
    AngleJsonHasNoNul(driver.currentAngle);
    CStringOfNoNul(out);
    var body := CString(response[..]);
    return JsonContentType, Response(Ok200, body), EspOk;
  }
}
