/** The host scene as seen by the rig script: every host call the modelled
    operations issue is recorded as one abstract effect, in issue order. */
module Scene {

  datatype Effect =
    | MakeIdentity(target: string)           // freeze transformations
    | DeleteHistory(target: string)          // delete construction history
    | Lock(attr: string)                     // set attribute locked and non-keyable
    | SetAttr(attr: string, value: int)      // set an integer attribute
}
