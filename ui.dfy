/**
 * What a screen hands to the host platform: a modal alert with a title and a
 * message, and a navigation request.
 */
module Ui {
  datatype Alert = Alert(title: string, message: string)

  /**
   * `router.push({ pathname, params })`, `router.replace(pathname)` and
   * `router.back()`; a plain `router.push(pathname)` carries no params.
   */
  datatype Navigation = Push(path: string, params: map<string, string>) | Replace(path: string) | Back
}
