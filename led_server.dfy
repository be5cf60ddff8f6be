/**
 * The LED bank driven by the bridge server: three GPIO outputs (BCM pins 17,
 * 27 and 22 for green, yellow and red), written one at a time.
 */
module LedServer {
  import opened Wrappers
  import opened LedStatus

  datatype Led = Green | Yellow | Red

  /** The pins `setup_gpio` configures, in its order. */
  const Pins: seq<Led> := [Green, Yellow, Red]

  class LedBank {
    var green: bool
    var yellow: bool
    var red: bool

    /** The levels the pins hold before they are set up are not known. */
    constructor (green0: bool, yellow0: bool, red0: bool)
      ensures Current() == Lights(green0, yellow0, red0)
    {
      green, yellow, red := green0, yellow0, red0;
    }

    function Current(): Lights
      reads this
    {
      Lights(green, yellow, red)
    }

    function Level(led: Led): bool
      reads this
    {
      match led
      case Green => green
      case Yellow => yellow
      case Red => red
    }

    /**
     * One `GPIO.output` call, or the initial LOW level `GPIO.setup` gives a
     * pin: drives a single pin, leaving the others alone.
     */
    method Write(led: Led, high: bool)
      modifies this
      ensures Level(led) == high
      ensures forall other :: other != led ==> Level(other) == old(Level(other))
    {
      match led
      case Green => green := high;
      case Yellow => yellow := high;
      case Red => red := high;
    }

    /** `setup_gpio`: every pin in the list becomes an output, initially LOW. */
    method SetupGpio()
      modifies this
      ensures Current() == AllOff
    {
      for i := 0 to |Pins|
        invariant forall j :: 0 <= j < i ==> !Level(Pins[j])
      {
        Write(Pins[i], false);
      }
      assert Pins[0] == Green && Pins[1] == Yellow && Pins[2] == Red;
    }

    /** `set_led_status`: all three pins LOW, then at most one HIGH. */
    method SetLedStatus(status: string)
      modifies this
      ensures Current() == Render(status)
    {
      Write(Green, false);
      Write(Yellow, false);
      Write(Red, false);
      if status == "available" {
        Write(Green, true);
      } else if status == "charging" {
        Write(Yellow, true);
      } else if status == "faulty" {
        Write(Red, true);
      } else if status == "checked-out" || status == "off" {
        // all lights remain off
      }
    }

    /**
     * `set_led_route` with the `status` field already extracted from the
     * JSON body: a missing or empty status is rejected without touching the
     * LEDs; anything else is applied and echoed back.
     */
    method SetLedRoute(status: Option<string>) returns (resp: Response)
      modifies this
      ensures resp == Respond(status)
      ensures Current() == Step(old(Current()), status)
      ensures !Truthy(status) ==> unchanged(this)
      ensures Truthy(status) ==> Current() == Render(status.value)
      ensures old(AtMostOneLit(Current())) ==> AtMostOneLit(Current())
    {
      if !Truthy(status) {
        return Rejected(NoStatusError);
      }
      SetLedStatus(status.value);
      resp := Accepted(status.value);
    }

    /** The startup sequence: set the pins up, then show "available". */
    method Startup()
      modifies this
      ensures Current() == Lights(true, false, false)
    {
      SetupGpio();
      SetLedStatus("available");
    }
  }
}
