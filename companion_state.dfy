// The companion's behaviour states, shared by the generation controller and
// the command handler. Their C# declaration is not part of this model; these
// are the four values both classes switch on.
module CompanionStates {

  datatype CompanionState = FOLLOW | PROTECT | HEAL | RUN_AROUND
}
