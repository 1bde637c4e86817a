/**
 * The job record shared by the queue and the schedulers (src/process.h).
 * Every field but `timeleft` is fixed once the job list has been read;
 * the schedulers count `timeleft` down in place, through pointers into
 * the job array, so a job is an object here and those pointers are
 * references to it.
 */
module Processes {

  /** A job's label. The schedulers only copy it into completion records. */
  type Name = seq<char>

  class Process {
    const name: Name
    const arrival: int
    const service: int
    const priority: int
    var timeleft: int

    constructor (name: Name, arrival: int, service: int, priority: int, timeleft: int)
      ensures this.name == name && this.arrival == arrival && this.service == service
      ensures this.priority == priority && this.timeleft == timeleft
    {
      this.name := name;
      this.arrival := arrival;
      this.service := service;
      this.priority := priority;
      this.timeleft := timeleft;
    }
  }
}
