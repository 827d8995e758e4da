/** The icon names the modelled screens choose between (rendering is not modelled). */
module Icons {

  datatype Icon =
    | Shield | Users | Home | BookOpen | Calendar | Map | Wrench
    | CheckCircle | Clock | Circle
}
