/**
 * The start-up of `main` (src/main.cpp:596-609): the configuration is read,
 * then the brightness step starts at the saved manual brightness when
 * automatic brightness is off, and the temperature step restarts from 0
 * when automatic temperature is on, so that the first ease is smooth.
 */
module Startup {
  import opened Cfg

  /**
   * `read()` followed by the step set-up. `brtStep` is the value of the
   * global `brt_step`, which starts at `brt_slider_steps`; `r` and `w` are
   * the outcomes of the file operations `read` performs. The file saved by
   * `read` holds the configuration as loaded, before the temperature step
   * is reset.
   */
  method Boot(store: Store, r: ReadOutcome, w: WriteOutcome) returns (brtStep: int)
    modifies store
    ensures var loaded := if r.Parses? then r.cfg
                          else if r.Malformed? then Default(store.brtSliderSteps, store.maxTempKelvin)
                          else old(store.cfg);
      store.cfg == (if loaded.autoTemp then loaded.(tempStep := 0) else loaded) &&
      brtStep == (if loaded.autoBr then store.brtSliderSteps else loaded.brightness) &&
      store.file == if (r.EmptyFile? || r.Malformed?) && store.path != "" && w != CannotOpen then
                      (if w == DumpThrows then Partial else Holds(loaded))
                    else old(store.file)
    ensures r.Malformed? ==>
      brtStep == store.brtSliderSteps && store.cfg == Default(store.brtSliderSteps, store.maxTempKelvin)
  {
    brtStep := store.brtSliderSteps;
    store.Read(r, w);
    if !store.cfg.autoBr {
      brtStep := store.cfg.brightness;
    }
    if store.cfg.autoTemp {
      store.cfg := store.cfg.(tempStep := 0);
    }
  }
}
