/** The NavX inertial sensor as the loops see it. Its readings are inputs to the
    loop methods; what the loops DO to it (reset, zero the yaw) is recorded
    here as a log of calls, since the effect on the device is not modelled. */
module Hardware {

  datatype AHRSCall = Reset | ZeroYaw

  class AHRS {
    /** Every call made on the sensor, oldest first. */
    var calls: seq<AHRSCall>

    constructor ()
      ensures calls == []
    {
      calls := [];
    }

    method Reset()
      modifies this
      ensures calls == old(calls) + [AHRSCall.Reset]
    {
      calls := calls + [AHRSCall.Reset];
    }

    method ZeroYaw()
      modifies this
      ensures calls == old(calls) + [AHRSCall.ZeroYaw]
    {
      calls := calls + [AHRSCall.ZeroYaw];
    }
  }
}
