/** A native alert dialog as the mobile screens raise it: a title and a message. */
module Alerts {
  datatype Alert = Alert(title: string, message: string)
}
