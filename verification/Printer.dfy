/** What the printer layer answers (app/printer.py). */
module Printer {
  datatype PrinterJobState = Pending | Printing | Completed | Failed | Unknown | Cancelled

  /** `lpstat -p` folded into flags; `ok` is false when the probe itself failed. */
  datatype QueueFlags = QueueFlags(ok: bool, idle: bool, printing: bool)
}
