/** Failure-carrying values standing in for the exceptions the rostering engine raises. */
module Wrappers {

  datatype Option<T> = None | Some(value: T)

  /** Which rule of the parameter validator rejected a parameter set. */
  datatype ParamRule =
    | LongMinWorkingWithDaysOff     // min_working > 3 and min_off >= 1
    | NoRoomBeforeFirstDayOff       // min(days_off) - min_working < 1
    | MinWorkingAfterFirstDayOff    // min_working > min(days_off)
    | GapTooShort(position: nat)    // adjacent mandatory days off too close

  /** The exceptions of the source, by cause. */
  datatype Fault =
    | ImmutableDay                  // TypeError from the Day.type setter
    | TypeMismatch                  // assertion failure in a day-run utility
    | UnboundIndex                  // get_next_available_day on a one-day horizon
    | LengthMismatch                // explicit days whose length is not num_days
    | EmptyHorizon                  // evaluate on a rotation without blocks (blocks[-1])
    | InvalidParams(rule: ParamRule) // assertion failure in check_params
    | UnknownWeekday                // KeyError from DAY_NAME in a check_params message

  datatype Result<T> = Ok(value: T) | Err(fault: Fault)

  datatype Outcome = Pass | Fail(fault: Fault)
}
